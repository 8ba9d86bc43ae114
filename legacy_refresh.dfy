// The older refresh script (sync_atualizar.py): the same candidate query and
// classification without orphan links, its own cap, a change check over a
// plain HTTP session (no PUCX-ER1001 handling; the session's retry adapter
// is not modelled), supplementary queries that are
// always made, and a sequential phase 1. Its full-detail query and normaliser
// come from a module outside the repository and are inputs here.
module LegacyRefresh {
  import opened Wrappers
  import opened Constants
  import N = DueNormalizer
  import C = DueCache
  import R = Refresh
  import CM = Completion

  // ---- Candidates and the cap ----

  /** `carregar_dues_para_verificar`: the three lists, or None when the database cannot be reached or a query raises. */
  method LegacyLoadCandidates(reachable: bool, table: seq<R.StoredDue>, force: bool, now: int,
                              limite: Option<int>) returns (r: Option<R.Buckets>)
    ensures !reachable ==> r.None?
    ensures reachable ==> r == Some(LegacyCap(R.Classification(R.Loaded(table, force, now), [], now), R.CapOf(limite)))
  {
    if !reachable {
      return None;
    }
    var pendentes, recentes, antigas := R.Partition(R.Loaded(table, force, now), now);
    assert R.Orphans([]) == [];
    var b := R.Buckets([], pendentes, recentes, antigas);
    var cap := R.CapOf(limite);
    if |pendentes| + |recentes| + |antigas| > cap {
      if |pendentes| > cap {
        b := b.(pendentes := PyPrefix(pendentes, cap), recentes := [], antigas := []);
      } else {
        var restante := cap - |pendentes|;
        if |recentes| > restante {
          b := b.(recentes := PyPrefix(recentes, restante), antigas := []);
        } else {
          b := b.(antigas := PyPrefix(antigas, restante - |recentes|));
        }
      }
    }
    return Some(b);
  }

  /** The cap of the three lists, in priority pendentes, recentes, antigas; orphans are not part of this script. */
  function LegacyCap(b: R.Buckets, cap: int): R.Buckets
  {
    if |b.pendentes| + |b.recentes| + |b.antigas| <= cap then b
    else if |b.pendentes| > cap then b.(pendentes := PyPrefix(b.pendentes, cap), recentes := [], antigas := [])
    else
      var rest := cap - |b.pendentes|;
      if |b.recentes| > rest then b.(recentes := PyPrefix(b.recentes, rest), antigas := [])
      else b.(antigas := PyPrefix(b.antigas, rest - |b.recentes|))
  }

  /** The cap keeps the priority order and, for a non-negative cap, leaves at most `cap` DUEs. */
  lemma LegacyCapMeaning(b: R.Buckets, cap: int)
    requires b.orfas == []
    ensures R.Prioritised(b, LegacyCap(b, cap))
    ensures R.Total(b) <= cap ==> LegacyCap(b, cap) == b
    ensures 0 <= cap ==> R.Total(LegacyCap(b, cap)) <= cap
    ensures 0 <= cap < R.Total(b) ==> R.Total(LegacyCap(b, cap)) == cap
  {
  }

  /** Without orphans and with a non-negative cap both scripts keep the same DUEs. */
  lemma LegacyCapAgrees(b: R.Buckets, cap: int)
    requires b.orfas == [] && 0 <= cap
    ensures LegacyCap(b, cap) == R.Cap(b, cap)
  {
  }

  /** A negative limit: the older script drops the last pending DUE, the newer one keeps nothing. */
  lemma NegativeLimitDiffers(c: R.Candidate)
    ensures var b := R.Buckets([], [c, c], [], []);
            LegacyCap(b, -1) == R.Buckets([], [c], [], []) && R.Cap(b, -1) == R.Buckets([], [], [], [])
  {
  }

  // ---- The change check over a plain session ----

  /**
   * `verificar_se_due_mudou` of the older script: a 429 is an ordinary HTTP
   * status and a 200 body is compared whatever its code says. A plain session
   * never raises a rate-limit error; one would be an unexpected error.
   */
  function LegacyChangeCheck(c: R.Call, stored: Option<int>, parse: R.Parser): R.Check
  {
    match c
    case TimedOut => R.Failed(R.Timeout)
    case ConnectionLost => R.Failed(R.Connection)
    case RateLimitRaised => R.Failed(R.Unexpected)
    case Raised => R.Failed(R.Unexpected)
    case Answered(status, body) =>
      if status == 401 then R.Failed(R.TokenExpired)
      else if status == 404 then R.Failed(R.NotFound)
      else if status == 422 then R.Failed(R.Validation)
      else if status != 200 then R.Failed(R.HttpStatus(status))
      else if body.None? || !body.value.Obj? then R.Failed(R.Unexpected)
      else R.Comparison(body.value.fields, stored, parse)
  }

  /** Away from rate limits the two change checks agree. */
  lemma ChecksAgree(c: R.Call, stored: Option<int>, parse: R.Parser)
    requires !c.RateLimitRaised?
    requires !(c.Answered? && c.status == 429)
    requires !(c.Answered? && c.status == 200 && c.body.Some? && R.RateLimitBody(c.body.value))
    ensures LegacyChangeCheck(c, stored, parse) == R.ChangeCheck(c, stored, parse)
  {
  }

  /** Where they part: a 429 is a plain HTTP error, and a rate-limit body without a date counts as a change. */
  lemma LegacyIgnoresRateLimits(stored: Option<int>, parse: R.Parser, body: Option<Value>)
    ensures LegacyChangeCheck(R.Answered(429, body), stored, parse) == R.Failed(R.HttpStatus(429))
    ensures var d := map["code" := Str("PUCX-ER1001")];
            LegacyChangeCheck(R.Answered(200, Some(Obj(d))), stored, parse) == R.Changed(Obj(d))
            && R.ChangeCheck(R.Answered(200, Some(Obj(d))), stored, parse) == R.Failed(R.Unexpected)
  {
    var d := map["code" := Str("PUCX-ER1001")];
    assert "dataDeRegistro" !in d;
  }

  // ---- Supplementary queries ----

  /** `consultar_dados_adicionais`: all three queries are made and any failure or non-200 reply gives None. */
  function LegacyAdditionalData(s: R.Call, i: R.Call, e: R.Call): R.Supplements
  {
    R.Supplements(R.Body200(s), R.Body200(i), R.Body200(e))
  }

  /** With no rate limit in the way it gives what the newer queries give with every flag on. */
  lemma SupplementsAgree(s: R.Call, i: R.Call, e: R.Call)
    requires !s.RateLimitRaised? && !i.RateLimitRaised? && !e.RateLimitRaised?
    ensures R.AdditionalData(FetchFlags(true, true, true), s, i, e) == Some(LegacyAdditionalData(s, i, e))
  {
  }

  /** Every query is made whatever the flags of the newer script say, and a failed one is only a missing list. */
  lemma LegacySupplementsIgnoreFlags(s: R.Call, i: R.Call, e: R.Call)
    ensures LegacyAdditionalData(s, i, e).suspensao.Some? ==> s.Answered? && s.status == 200
    ensures LegacyAdditionalData(s, i, e).isencao.Some? ==> i.Answered? && i.status == 200
    ensures LegacyAdditionalData(s, i, e).exigencias.Some? ==> e.Answered? && e.status == 200
    ensures s.Answered? && s.status == 200 ==> LegacyAdditionalData(s, i, e).suspensao == s.body
    ensures i.Answered? && i.status == 200 ==> LegacyAdditionalData(s, i, e).isencao == i.body
    ensures e.Answered? && e.status == 200 ==> LegacyAdditionalData(s, i, e).exigencias == e.body
  {
  }

  // ---- Workers over DUEs settled long ago ----

  /** The external normaliser: its outcome on a payload and the supplements (KeyError stands for any exception). */
  type LegacyProcessor = (Value, R.Supplements) -> N.Outcome

  /** `processar_due_averbada_antiga` of the older script. */
  function LegacyOldVerdict(c: R.Candidate, r: R.OldReplies, parse: R.Parser, process: LegacyProcessor): R.Verdict
  {
    match LegacyChangeCheck(r.check, c.registro, parse)
    case Failed(e) => R.Errored(R.CheckFault(e))
    case Unchanged => R.Same
    case Changed(payload) =>
      if !TruthyValue(payload) then R.Modified(None)
      else match process(payload, LegacyAdditionalData(r.suspensao, r.isencao, r.exigencias))
        case KeyError => R.Errored(R.ProcessingFault)
        case Invalid => R.Modified(None)
        case Done(t) => R.Modified(Some(t))
  }

  /**
   * A failed check is an error; an unchanged DUE is never processed; a
   * changed one is an error only when the normaliser raises.
   */
  lemma LegacyOldVerdictMeaning(c: R.Candidate, r: R.OldReplies, parse: R.Parser, process: LegacyProcessor)
    ensures var k := LegacyChangeCheck(r.check, c.registro, parse);
            var v := LegacyOldVerdict(c, r, parse, process);
            (v.Same? <==> k.Unchanged?)
            && (v.Errored? <==> (k.Failed? || (k.Changed? && TruthyValue(k.payload)
                                 && process(k.payload, LegacyAdditionalData(r.suspensao, r.isencao, r.exigencias)).KeyError?)))
            && (k.Failed? ==> v == R.Errored(R.CheckFault(k.error)))
  {
  }

  /** A result in completion order; None when its future raised. */
  function LegacyCompletion(c: R.Candidate, r: Option<R.OldReplies>, parse: R.Parser, process: LegacyProcessor): R.Verdict
  {
    if r.None? then R.Errored(R.WorkerFault) else LegacyOldVerdict(c, r.value, parse, process)
  }

  // ---- Phase 1, sequential ----

  /** What the older phase 1 gets for one DUE: the external full query's result and the three supplementary replies. */
  datatype PendingFetch = PendingFetch(detail: Value, suspensao: R.Call, isencao: R.Call, exigencias: R.Call)

  /** The tables of one pending DUE, or None when the normaliser raises: nothing in phase 1 catches it. */
  function LegacyDownload(f: PendingFetch, process: LegacyProcessor): (r: Option<Option<N.Tables>>)
    ensures !TruthyValue(f.detail) ==> r == Some(None)
  {
    if !TruthyValue(f.detail) then Some(None)
    else match process(f.detail, LegacyAdditionalData(f.suspensao, f.isencao, f.exigencias))
      case KeyError => None
      case Invalid => Some(None)
      case Done(t) => Some(Some(t))
  }

  /** Phase 1 over the DUEs in list order; None when the script dies on an exception. */
  function LegacyPhase1From(p: R.Phase1, b: R.Buckets, dues: seq<R.Candidate>,
                            fetch: R.Candidate -> PendingFetch, process: LegacyProcessor): Option<R.Phase1>
    decreases |dues|
  {
    if dues == [] then Some(p)
    else match LegacyDownload(fetch(dues[0]), process)
      case None => None
      case Some(t) =>
        var ok := R.HasTables(t);
        LegacyPhase1From(p.(tables := if ok then C.Extend(p.tables, t.value) else p.tables,
                            stats := R.CountIn(p.stats, b, dues[0], ok)), b, dues[1..], fetch, process)
  }

  /** Phase 1 either dies on the first DUE whose normaliser raises or counts every DUE exactly once; it never stops on a rate limit. */
  lemma {:induction false} LegacyPhase1Meaning(p: R.Phase1, b: R.Buckets, dues: seq<R.Candidate>,
                                               fetch: R.Candidate -> PendingFetch, process: LegacyProcessor)
    ensures LegacyPhase1From(p, b, dues, fetch, process).None? <==>
              exists i :: 0 <= i < |dues| && LegacyDownload(fetch(dues[i]), process).None?
    ensures LegacyPhase1From(p, b, dues, fetch, process).Some? ==>
              R.Processed(LegacyPhase1From(p, b, dues, fetch, process).value.stats) == R.Processed(p.stats) + |dues|
              && LegacyPhase1From(p, b, dues, fetch, process).value.rateLimited == p.rateLimited
    decreases |dues|
  {
    if dues != [] {
      match LegacyDownload(fetch(dues[0]), process)
      case None =>
      case Some(t) =>
        var ok := R.HasTables(t);
        var p1 := p.(tables := if ok then C.Extend(p.tables, t.value) else p.tables,
                     stats := R.CountIn(p.stats, b, dues[0], ok));
        LegacyPhase1Meaning(p1, b, dues[1..], fetch, process);
        if exists i :: 0 <= i < |dues| && LegacyDownload(fetch(dues[i]), process).None? {
          var i :| 0 <= i < |dues| && LegacyDownload(fetch(dues[i]), process).None?;
          assert dues[1..][i - 1] == dues[i];
        }
        if exists i :: 0 <= i < |dues[1..]| && LegacyDownload(fetch(dues[1..][i]), process).None? {
          var i :| 0 <= i < |dues[1..]| && LegacyDownload(fetch(dues[1..][i]), process).None?;
          assert dues[i + 1] == dues[1..][i];
        }
    }
  }

  /** The phase-1 loop over pendentes then averbadas_recentes; an exception ends it with nothing kept. */
  method LegacyRefreshPending(b: R.Buckets, fetch: R.Candidate -> PendingFetch, process: LegacyProcessor)
    returns (p: Option<R.Phase1>)
    ensures p == LegacyPhase1From(R.StartPhase1(), b, b.pendentes + b.recentes, fetch, process)
  {
    var dues := b.pendentes + b.recentes;
    var cur := R.StartPhase1();
    var i := 0;
    while i < |dues|
      invariant 0 <= i <= |dues|
      invariant LegacyPhase1From(cur, b, dues[i..], fetch, process) == LegacyPhase1From(R.StartPhase1(), b, dues, fetch, process)
    {
      assert dues[i..][1..] == dues[i + 1..];
      var d := LegacyDownload(fetch(dues[i]), process);
      if d.None? {
        return None;
      }
      var ok := R.HasTables(d.value);
      if ok {
        cur := cur.(tables := C.Extend(cur.tables, d.value.value));
      }
      cur := cur.(stats := R.CountIn(cur.stats, b, dues[i], ok));
      i := i + 1;
    }
    return Some(cur);
  }

  // ---- The run ----

  datatype LegacyEnding = LoadFailed | NothingToRefresh | NoCredentials | AuthFailed | ProcessorMissing | Crashed | Finished

  datatype LegacyRun = LegacyRun(actions: seq<R.Action>, ending: LegacyEnding, report: Option<R.Report>)

  /** `atualizar_dues` of the older script once the candidates are loaded; `importOk` says whether the external module loads. */
  function LegacyRefreshRun(loaded: Option<R.Buckets>, credentials: bool, authOk: bool, importOk: bool,
                            fetch: R.Candidate -> PendingFetch, process: LegacyProcessor,
                            checked: seq<(Value, R.Verdict)>): LegacyRun
  {
    if loaded.None? then LegacyRun([], LoadFailed, None)
    else if R.Total(loaded.value) == 0 then LegacyRun([], NothingToRefresh, None)
    else if !credentials then LegacyRun([], NoCredentials, None)
    else if !authOk then LegacyRun([R.Authenticate], AuthFailed, None)
    else if !importOk then LegacyRun([R.Authenticate], ProcessorMissing, None)
    else
      var b := loaded.value;
      match LegacyPhase1From(R.StartPhase1(), b, b.pendentes + b.recentes, fetch, process)
      case None => LegacyRun([R.Authenticate], Crashed, None)
      case Some(p) =>
        var t := if b.antigas == [] then R.StartTally() else R.TallyAll(R.StartTally(), checked);
        var touch := if t.unchangedDues != [] then [R.TouchLastSync(t.unchangedDues)] else [];
        var r := R.MakeReport(p.stats, t);
        var save := if r.updated > 0 then [R.Save(C.Extend(p.tables, t.tables))] else [];
        LegacyRun([R.Authenticate] + touch + save, Finished, Some(r))
  }

  /**
   * When the pool of the older script completes each DUE settled long ago
   * once, a finished run reports every such DUE as changed, unchanged or in
   * error, once, and phase 1 counts every pending and recently settled DUE.
   */
  lemma LegacyRefreshCovers(loaded: Option<R.Buckets>, credentials: bool, authOk: bool, importOk: bool,
                            fetch: R.Candidate -> PendingFetch, process: LegacyProcessor,
                            checked: seq<(Value, R.Verdict)>)
    requires loaded.Some? && CM.CompletesOnce(checked, multiset(R.Numbers(loaded.value.antigas)))
    ensures var r := LegacyRefreshRun(loaded, credentials, authOk, importOk, fetch, process, checked);
            var b := loaded.value;
            r.ending == Finished ==>
              var rep := r.report.value;
              R.Processed(rep.phase1) == |b.pendentes| + |b.recentes|
              && rep.checked.mudou + rep.checked.semMudanca + rep.checked.erros == |b.antigas|
  {
    var b := loaded.value;
    LegacyPhase1Meaning(R.StartPhase1(), b, b.pendentes + b.recentes, fetch, process);
    R.Phase2Covers(b.antigas, checked);
    if b.antigas == [] {
      assert |checked| == |CM.Keys(checked)| == |multiset(CM.Keys(checked))| == 0;
    }
  }

  /**
   * Nothing is contacted without a candidate; authentication comes first; an
   * exception in phase 1 loses everything downloaded; the last-sync update
   * lists exactly the unchanged DUEs; the save happens iff some DUE was
   * updated; savings are three requests per unchanged DUE.
   */
  lemma LegacyRunMeaning(loaded: Option<R.Buckets>, credentials: bool, authOk: bool, importOk: bool,
                         fetch: R.Candidate -> PendingFetch, process: LegacyProcessor, checked: seq<(Value, R.Verdict)>)
    ensures var r := LegacyRefreshRun(loaded, credentials, authOk, importOk, fetch, process, checked);
            (loaded.Some? && R.Total(loaded.value) == 0 ==> r.actions == [])
            && (r.actions != [] ==> r.actions[0] == R.Authenticate)
            && (r.ending == Crashed ==> r.actions == [R.Authenticate])
            && (forall a :: a in r.actions && a.TouchLastSync? ==>
                  r.ending == Finished && loaded.value.antigas != [] && a.numeros == R.SameNumbers(checked) && a.numeros != [])
            && (r.ending == Finished ==>
                  ((exists a :: a in r.actions && a.Save?) <==> r.report.value.updated > 0))
            && (r.report.Some? ==> r.report.value.savedRequests == 3 * r.report.value.ignored)
  {
    if loaded.Some? && R.Total(loaded.value) > 0 && credentials && authOk && importOk {
      var b := loaded.value;
      var res := LegacyPhase1From(R.StartPhase1(), b, b.pendentes + b.recentes, fetch, process);
      if res.Some? {
        var p := res.value;
        var t := if b.antigas == [] then R.StartTally() else R.TallyAll(R.StartTally(), checked);
        if b.antigas != [] {
          R.TallyAllMeaning(R.StartTally(), checked);
        }
        var touch := if t.unchangedDues != [] then [R.TouchLastSync(t.unchangedDues)] else [];
        var rep := R.MakeReport(p.stats, t);
        var save := if rep.updated > 0 then [R.Save(C.Extend(p.tables, t.tables))] else [];
        var actions := [R.Authenticate] + touch + save;
        assert LegacyRefreshRun(loaded, credentials, authOk, importOk, fetch, process, checked)
               == LegacyRun(actions, Finished, Some(rep));
        if rep.updated > 0 {
          assert actions[|actions| - 1].Save?;
        } else {
          assert forall a :: a in actions ==> a.Authenticate? || a.TouchLastSync?;
        }
      }
    }
  }

  /** The older `atualizar_dues`: phase 1 in list order, then the pool of settled DUEs with at most 8 workers asked for. */
  method LegacyRefreshDues(loaded: Option<R.Buckets>, credentials: bool, authOk: bool, importOk: bool,
                           fetch: R.Candidate -> PendingFetch, process: LegacyProcessor,
                           checked: seq<(Value, R.Verdict)>) returns (run: LegacyRun)
    ensures run == LegacyRefreshRun(loaded, credentials, authOk, importOk, fetch, process, checked)
  {
    if loaded.None? {
      return LegacyRun([], LoadFailed, None);
    }
    var b := loaded.value;
    if R.Total(b) == 0 {
      return LegacyRun([], NothingToRefresh, None);
    }
    if !credentials {
      return LegacyRun([], NoCredentials, None);
    }
    if !authOk {
      return LegacyRun([R.Authenticate], AuthFailed, None);
    }
    if !importOk {
      return LegacyRun([R.Authenticate], ProcessorMissing, None);
    }
    var res := LegacyRefreshPending(b, fetch, process);
    if res.None? {
      return LegacyRun([R.Authenticate], Crashed, None);
    }
    var p := res.value;
    var t := R.StartTally();
    if b.antigas != [] {
      var workers;
      t, workers := R.TallyOldDues(checked, 8);
    }
    var actions := [R.Authenticate];
    if t.unchangedDues != [] {
      actions := actions + [R.TouchLastSync(t.unchangedDues)];
    }
    var report := R.MakeReport(p.stats, t);
    if report.updated > 0 {
      actions := actions + [R.Save(C.Extend(p.tables, t.tables))];
    }
    return LegacyRun(actions, Finished, Some(report));
  }
}
