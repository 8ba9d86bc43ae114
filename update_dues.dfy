// The refresh of stored DUEs (src/sync/update_dues.py): which stored DUEs are
// candidates, the per-run cap, the change check of DUEs settled long ago, the
// supplementary queries, the two processing phases and the phase control of a
// run. The database, every Siscomex reply and the normaliser are inputs; the
// worker pools are replaced by the order in which their results complete.
module Refresh {
  import opened Wrappers
  import opened Constants
  import N = DueNormalizer
  import L = DueLookup
  import C = DueCache
  import CM = Completion

  // ---- Candidates ----

  /** A due_principal row as the candidate query reads it; instants are seconds and None is NULL. */
  datatype StoredDue = StoredDue(numero: Value, situacao: Option<string>, registro: Option<int>,
                                 averbacao: Option<int>, lastSync: Option<int>)

  /** A candidate: its DUE number and the registration date stored for it. */
  datatype Candidate = Candidate(numero: Value, registro: Option<int>)

  /** The candidates by kind: orphan links, pending, recently settled, settled long ago. */
  datatype Buckets = Buckets(orfas: seq<Candidate>, pendentes: seq<Candidate>,
                             recentes: seq<Candidate>, antigas: seq<Candidate>)

  /**
   * The filter of the candidate query: a status outside the cancelled ones (a
   * NULL status fails `NOT IN` as well) and, unless forced, no last-sync
   * instant or one more than 24 hours old.
   */
  predicate Eligible(r: StoredDue, force: bool, now: int)
  {
    r.situacao.Some? && r.situacao.value !in Cancelled
    && (force || r.lastSync.None? || r.lastSync.value < now - HoursBeforeUpdate * SecondsPerHour)
  }

  /** The rows the candidate query returns, in the order the table is given. */
  function Loaded(table: seq<StoredDue>, force: bool, now: int): (r: seq<StoredDue>)
    ensures |r| <= |table|
    ensures forall x :: x in r <==> x in table && Eligible(x, force, now)
  {
    if table == [] then []
    else
      assert forall x :: x in table <==> x == table[0] || x in table[1..];
      (if Eligible(table[0], force, now) then [table[0]] else []) + Loaded(table[1..], force, now)
  }

  /** A loaded row is never cancelled and, in the incremental mode, was not synchronised in the last 24 hours. */
  lemma LoadedNeverCancelled(table: seq<StoredDue>, force: bool, now: int)
    ensures forall x :: x in Loaded(table, force, now) ==> x.situacao.Some? && x.situacao.value !in Cancelled
    ensures !force ==> forall x :: x in Loaded(table, force, now) ==>
              x.lastSync.None? || x.lastSync.value < now - 24 * 3600
    ensures force ==> forall x :: x in table && x.situacao.Some? && x.situacao.value !in Cancelled ==> x in Loaded(table, force, now)
  {
  }

  datatype Kind = Pending | RecentlySettled | SettledLongAgo

  /** A settled status with a settlement after now minus 7 days is recent; one without a date is old. */
  function KindOf(r: StoredDue, now: int): Kind
  {
    if r.situacao.Some? && r.situacao.value in Settled then
      if r.averbacao.Some? && r.averbacao.value > now - RecentSettlementDays * SecondsPerDay
      then RecentlySettled else SettledLongAgo
    else Pending
  }

  function CandidateOf(r: StoredDue): Candidate
  {
    Candidate(r.numero, r.registro)
  }

  /** The candidates of the rows of kind `k`, in order. */
  function OfKind(rows: seq<StoredDue>, now: int, k: Kind): (r: seq<Candidate>)
    ensures |r| <= |rows|
  {
    if rows == [] then []
    else OfKind(rows[..|rows| - 1], now, k)
         + (if KindOf(rows[|rows| - 1], now) == k then [CandidateOf(rows[|rows| - 1])] else [])
  }

  /** The orphan links: their DUE numbers, without a stored registration date. */
  function Orphans(numeros: seq<Value>): seq<Candidate>
  {
    seq(|numeros|, i requires 0 <= i < |numeros| => Candidate(numeros[i], None))
  }

  /** What the classifying loop builds from the loaded rows and the orphan numbers. */
  function Classification(rows: seq<StoredDue>, orfas: seq<Value>, now: int): Buckets
  {
    Buckets(Orphans(orfas), OfKind(rows, now, Pending), OfKind(rows, now, RecentlySettled), OfKind(rows, now, SettledLongAgo))
  }

  /** Every loaded row lands in the list of its kind, each list holds only rows of its kind, and the lists add up to the rows. */
  lemma {:induction false} EachRowOnce(rows: seq<StoredDue>, now: int)
    ensures |OfKind(rows, now, Pending)| + |OfKind(rows, now, RecentlySettled)| + |OfKind(rows, now, SettledLongAgo)| == |rows|
    ensures forall i :: 0 <= i < |rows| ==> CandidateOf(rows[i]) in OfKind(rows, now, KindOf(rows[i], now))
    ensures forall k, c :: c in OfKind(rows, now, k) ==> exists r :: r in rows && KindOf(r, now) == k && CandidateOf(r) == c
  {
    if rows != [] {
      var init := rows[..|rows| - 1];
      var last := rows[|rows| - 1];
      EachRowOnce(init, now);
      forall i | 0 <= i < |rows|
        ensures CandidateOf(rows[i]) in OfKind(rows, now, KindOf(rows[i], now))
      {
        if i < |rows| - 1 {
          assert rows[i] == init[i];
        }
      }
      forall k, c | c in OfKind(rows, now, k)
        ensures exists r :: r in rows && KindOf(r, now) == k && CandidateOf(r) == c
      {
        if c in OfKind(init, now, k) {
          var r :| r in init && KindOf(r, now) == k && CandidateOf(r) == c;
          assert r in rows;
        } else {
          assert last in rows;
        }
      }
    }
  }

  /** The rows of each kind among three rows, in order. */
  lemma OfKindThree(a: StoredDue, b: StoredDue, c: StoredDue, now: int, k: Kind)
    ensures OfKind([a, b, c], now, k) == (if KindOf(a, now) == k then [CandidateOf(a)] else [])
                                        + (if KindOf(b, now) == k then [CandidateOf(b)] else [])
                                        + (if KindOf(c, now) == k then [CandidateOf(c)] else [])
  {
    var rows := [a, b, c];
    assert rows[..2] == [a, b] && [a, b][..1] == [a] && [a][..0] == [];
    assert OfKind([a], now, k) == (if KindOf(a, now) == k then [CandidateOf(a)] else []);
    assert OfKind([a, b], now, k) == OfKind([a], now, k) + (if KindOf(b, now) == k then [CandidateOf(b)] else []);
    assert OfKind(rows, now, k) == OfKind([a, b], now, k) + (if KindOf(c, now) == k then [CandidateOf(c)] else []);
  }

  /** Three eligible rows are all loaded, in order. */
  lemma LoadedThree(a: StoredDue, b: StoredDue, c: StoredDue, now: int)
    requires Eligible(a, true, now) && Eligible(b, true, now) && Eligible(c, true, now)
    ensures Loaded([a, b, c], true, now) == [a, b, c]
  {
    var rows := [a, b, c];
    assert rows[1..] == [b, c] && rows[1..][1..] == [c] && [c][1..] == [];
  }

  /** The classification of the three rows the tests use: one of each kind. */
  lemma ClassifiesThreeRows(now: int, recent: int, earlier: int)
    requires recent > now - 7 * 86400 && earlier <= now - 7 * 86400
    ensures var rows := [StoredDue(Str("DUE1"), Some("AVERBADA_SEM_DIVERGENCIA"), Some(now), Some(recent), None),
                         StoredDue(Str("DUE2"), Some("AVERBADA_SEM_DIVERGENCIA"), Some(now), Some(earlier), None),
                         StoredDue(Str("DUE3"), Some("EM_CARGA"), Some(now), None, None)];
            var b := Classification(Loaded(rows, true, now), [], now);
            b.recentes == [Candidate(Str("DUE1"), Some(now))] && b.antigas == [Candidate(Str("DUE2"), Some(now))]
            && b.pendentes == [Candidate(Str("DUE3"), Some(now))] && b.orfas == []
  {
    var d1 := StoredDue(Str("DUE1"), Some("AVERBADA_SEM_DIVERGENCIA"), Some(now), Some(recent), None);
    var d2 := StoredDue(Str("DUE2"), Some("AVERBADA_SEM_DIVERGENCIA"), Some(now), Some(earlier), None);
    var d3 := StoredDue(Str("DUE3"), Some("EM_CARGA"), Some(now), None, None);
    assert KindOf(d1, now) == RecentlySettled && KindOf(d2, now) == SettledLongAgo && KindOf(d3, now) == Pending;
    assert Eligible(d1, true, now) && Eligible(d2, true, now) && Eligible(d3, true, now);
    ClassifyThree(d1, d2, d3, now);
  }

  /** Three eligible rows, one recently settled, one settled long ago and one pending, land one in each list. */
  lemma ClassifyThree(a: StoredDue, b: StoredDue, c: StoredDue, now: int)
    requires Eligible(a, true, now) && Eligible(b, true, now) && Eligible(c, true, now)
    requires KindOf(a, now) == RecentlySettled && KindOf(b, now) == SettledLongAgo && KindOf(c, now) == Pending
    ensures var bk := Classification(Loaded([a, b, c], true, now), [], now);
            bk.recentes == [CandidateOf(a)] && bk.antigas == [CandidateOf(b)]
            && bk.pendentes == [CandidateOf(c)] && bk.orfas == []
  {
    LoadedThree(a, b, c, now);
    OfKindThree(a, b, c, now, Pending);
    OfKindThree(a, b, c, now, RecentlySettled);
    OfKindThree(a, b, c, now, SettledLongAgo);
  }

  /** The classifying loop over the loaded rows (`carregar_dues_para_verificar`). */
  method Partition(rows: seq<StoredDue>, now: int) returns (pendentes: seq<Candidate>, recentes: seq<Candidate>, antigas: seq<Candidate>)
    ensures pendentes == OfKind(rows, now, Pending)
    ensures recentes == OfKind(rows, now, RecentlySettled)
    ensures antigas == OfKind(rows, now, SettledLongAgo)
  {
    pendentes, recentes, antigas := [], [], [];
    for i := 0 to |rows|
      invariant pendentes == OfKind(rows[..i], now, Pending)
      invariant recentes == OfKind(rows[..i], now, RecentlySettled)
      invariant antigas == OfKind(rows[..i], now, SettledLongAgo)
    {
      assert rows[..i + 1][..i] == rows[..i];
      var r := rows[i];
      if r.situacao.Some? && r.situacao.value in Settled {
        if r.averbacao.Some? && r.averbacao.value > now - RecentSettlementDays * SecondsPerDay {
          recentes := recentes + [Candidate(r.numero, r.registro)];
        } else {
          antigas := antigas + [Candidate(r.numero, r.registro)];
        }
      } else {
        pendentes := pendentes + [Candidate(r.numero, r.registro)];
      }
    }
    assert rows[..|rows|] == rows;
  }

  // ---- The cap ----

  function Total(b: Buckets): nat
  {
    |b.orfas| + |b.pendentes| + |b.recentes| + |b.antigas|
  }

  /** `limite if limite else MAX_ATUALIZACOES_POR_EXECUCAO`: a missing or zero limit means 500. */
  function CapOf(limite: Option<int>): (cap: int)
    ensures limite.None? || limite.value == 0 ==> cap == 500
    ensures limite.Some? && limite.value != 0 ==> cap == limite.value
  {
    if limite.Some? && limite.value != 0 then limite.value else MaxUpdatesPerRun
  }

  /**
   * The truncation of an over-full run: orphans first, then pending, then
   * recently settled, then settled long ago; each list is cut with Python's
   * slicing, so a negative cap drops elements from the end of the orphans.
   */
  function Cap(b: Buckets, cap: int): Buckets
  {
    if Total(b) <= cap then b
    else if |b.orfas| > cap then Buckets(PyPrefix(b.orfas, cap), [], [], [])
    else
      var rest := cap - |b.orfas|;
      if |b.pendentes| > rest then Buckets(b.orfas, PyPrefix(b.pendentes, rest), [], [])
      else
        var rest2 := rest - |b.pendentes|;
        if |b.recentes| > rest2 then Buckets(b.orfas, b.pendentes, PyPrefix(b.recentes, rest2), [])
        else Buckets(b.orfas, b.pendentes, b.recentes, PyPrefix(b.antigas, rest2 - |b.recentes|))
  }

  /** Each list becomes a prefix of its original; a lower list keeps anything only when every higher list is whole. */
  predicate Prioritised(b: Buckets, r: Buckets)
  {
    |r.orfas| <= |b.orfas| && |r.pendentes| <= |b.pendentes| && |r.recentes| <= |b.recentes| && |r.antigas| <= |b.antigas|
    && r.orfas == b.orfas[..|r.orfas|] && r.pendentes == b.pendentes[..|r.pendentes|]
    && r.recentes == b.recentes[..|r.recentes|] && r.antigas == b.antigas[..|r.antigas|]
    && (r.pendentes != [] ==> r.orfas == b.orfas)
    && (r.recentes != [] ==> r.orfas == b.orfas && r.pendentes == b.pendentes)
    && (r.antigas != [] ==> r.orfas == b.orfas && r.pendentes == b.pendentes && r.recentes == b.recentes)
  }

  /** The cap keeps the priority order, changes nothing within the cap, and otherwise fills it exactly. */
  lemma CapMeaning(b: Buckets, cap: int)
    ensures Prioritised(b, Cap(b, cap))
    ensures Total(b) <= cap ==> Cap(b, cap) == b
    ensures 0 <= cap < Total(b) ==> Total(Cap(b, cap)) == cap
  {
  }

  // ---- Siscomex calls ----

  /** What a call through the session gives its caller: a reply (body None when it is not JSON) or the exception raised. */
  datatype Call = Answered(status: int, body: Option<Value>) | RateLimitRaised | TimedOut | ConnectionLost | Raised

  /**
   * The calls `request` can give: it hands back every reply, a PUCX-ER1001
   * block included, after its pause, and lets transport errors and other
   * exceptions escape, but it never raises RateLimitError.
   */
  predicate ViaRequest(c: Call)
  {
    !c.RateLimitRaised?
  }

  /** `buscar_dados_complementares`: the data of a supplementary query, or a rate limit that propagates. */
  datatype Supplement = Supplied(data: Option<Value>) | SupplementRateLimited

  function FetchSupplement(c: Call): (r: Supplement)
    ensures r.SupplementRateLimited? <==> c.RateLimitRaised?
    ensures r.Supplied? ==> r.data == (if c.Answered? && c.status == 200 then c.body else None)
  {
    match c
    case Answered(status, body) => Supplied(if status == 200 then body else None)
    case RateLimitRaised => SupplementRateLimited
    case _ => Supplied(None)
  }

  /** The three supplementary lists of a DUE: suspension acts, exemption acts, fiscal requirements. */
  datatype Supplements = Supplements(suspensao: Option<Value>, isencao: Option<Value>, exigencias: Option<Value>)

  function Flagged(on: bool, c: Call): Supplement
  {
    if on then FetchSupplement(c) else Supplied(None)
  }

  /** The 200 body of a call, the data a successful supplementary query keeps. */
  function Body200(c: Call): Option<Value>
  {
    if c.Answered? && c.status == 200 then c.body else None
  }

  /** `consultar_dados_adicionais`: only flagged queries are made; None when one of them hits the rate limit. */
  function AdditionalData(flags: FetchFlags, s: Call, i: Call, e: Call): (r: Option<Supplements>)
    ensures r.None? <==> (flags.atosSuspensao && s.RateLimitRaised?) || (flags.atosIsencao && i.RateLimitRaised?)
                         || (flags.exigenciasFiscais && e.RateLimitRaised?)
    ensures r.Some? ==> (r.value.suspensao == (if flags.atosSuspensao then Body200(s) else None)
                         && r.value.isencao == (if flags.atosIsencao then Body200(i) else None)
                         && r.value.exigencias == (if flags.exigenciasFiscais then Body200(e) else None))
  {
    match (Flagged(flags.atosSuspensao, s), Flagged(flags.atosIsencao, i), Flagged(flags.exigenciasFiscais, e))
    case (Supplied(a), Supplied(b), Supplied(c)) => Some(Supplements(a, b, c))
    case _ => None
  }

  /** A query whose flag is off is never made: its reply changes nothing. */
  lemma UnflaggedNotConsulted(flags: FetchFlags, s: Call, s2: Call, i: Call, i2: Call, e: Call, e2: Call)
    ensures !flags.atosSuspensao ==> AdditionalData(flags, s, i, e) == AdditionalData(flags, s2, i, e)
    ensures !flags.atosIsencao ==> AdditionalData(flags, s, i, e) == AdditionalData(flags, s, i2, e)
    ensures !flags.exigenciasFiscais ==> AdditionalData(flags, s, i, e) == AdditionalData(flags, s, i, e2)
  {
  }

  // ---- The change check of a DUE settled long ago ----

  /** Why a check gave no verdict; every rate limit ends as an unexpected error. */
  datatype CheckError = TokenExpired | NotFound | Validation | HttpStatus(status: int)
                      | Timeout | Connection | Unexpected

  /** `(True, payload, None)`, `(False, None, None)` or `(None, None, message)`. */
  datatype Check = Changed(payload: Value) | Unchanged | Failed(error: CheckError)

  /** The ISO-8601 parser with the '-0300' rewriting: None when it raises. */
  type Parser = string -> Option<int>

  /** The date comparison of a 200 dict reply against the stored registration date. */
  function Comparison(d: map<string, Value>, stored: Option<int>, parse: Parser): Check
  {
    var s := L.GetOr(d, "dataDeRegistro", Str(""));
    if !TruthyValue(s) then Changed(Obj(d))
    else if !s.Str? then Failed(Unexpected)
    else match parse(s.s)
      case None => Changed(Obj(d))
      case Some(api) => if stored.None? || api > stored.value then Changed(Obj(d)) else Unchanged
  }

  /** `PUCX-ER1001`: the rate limit Siscomex reports with status 200. */
  predicate RateLimitBody(v: Value)
  {
    v.Obj? && L.GetOr(v.fields, "code", Null) == Str("PUCX-ER1001")
  }

  /** `verificar_se_due_mudou`: the RateLimitError it raises itself is caught by its own last handler. */
  function ChangeCheck(c: Call, stored: Option<int>, parse: Parser): Check
  {
    match c
    case TimedOut => Failed(Timeout)
    case ConnectionLost => Failed(Connection)
    case RateLimitRaised => Failed(Unexpected)
    case Raised => Failed(Unexpected)
    case Answered(status, body) =>
      if status == 401 then Failed(TokenExpired)
      else if status == 429 then Failed(Unexpected)
      else if status == 404 then Failed(NotFound)
      else if status == 422 then Failed(Validation)
      else if status != 200 then Failed(HttpStatus(status))
      else if body.None? || RateLimitBody(body.value) || !body.value.Obj? then Failed(Unexpected)
      else Comparison(body.value.fields, stored, parse)
  }

  /**
   * A DUE counts as unchanged only when both dates are known and the remote
   * one is not later; a changed DUE's payload is the reply; every error
   * status gives no verdict, and a rate limit is reported as unexpected.
   */
  lemma ChangeCheckMeaning(c: Call, stored: Option<int>, parse: Parser)
    ensures ChangeCheck(c, stored, parse).Unchanged? <==>
              c.Answered? && c.status == 200 && c.body.Some? && c.body.value.Obj? && !RateLimitBody(c.body.value)
              && var s := L.GetOr(c.body.value.fields, "dataDeRegistro", Str(""));
                 s.Str? && s.s != "" && parse(s.s).Some? && stored.Some? && parse(s.s).value <= stored.value
    ensures ChangeCheck(c, stored, parse).Changed? ==>
              c.Answered? && c.status == 200 && ChangeCheck(c, stored, parse).payload == c.body.value
    ensures c.Answered? && c.status != 200 ==> ChangeCheck(c, stored, parse).Failed?
    ensures c.RateLimitRaised? || (c.Answered? && c.status == 429)
            || (c.Answered? && c.status == 200 && c.body.Some? && RateLimitBody(c.body.value))
            ==> ChangeCheck(c, stored, parse) == Failed(Unexpected)
  {
  }

  /** The test's case: a remote date a day before the stored one is unchanged. */
  lemma EarlierRemoteDateUnchanged(parse: Parser, api: int, stored: int)
    requires parse("2026-01-01T00:00:00.000-0300") == Some(api) && api <= stored
    ensures ChangeCheck(Answered(200, Some(Obj(map["dataDeRegistro" := Str("2026-01-01T00:00:00.000-0300")]))), Some(stored), parse)
            == Unchanged
  {
  }

  /** A missing remote date, a missing stored date and an unparsable date all count as changed. */
  lemma ChangedWhenInDoubt(d: map<string, Value>, stored: Option<int>, parse: Parser)
    requires !RateLimitBody(Obj(d))
    ensures "dataDeRegistro" !in d ==> ChangeCheck(Answered(200, Some(Obj(d))), stored, parse) == Changed(Obj(d))
    ensures "dataDeRegistro" in d && d["dataDeRegistro"].Str? && d["dataDeRegistro"].s != "" && parse(d["dataDeRegistro"].s).None?
            ==> ChangeCheck(Answered(200, Some(Obj(d))), stored, parse) == Changed(Obj(d))
    ensures "dataDeRegistro" in d && d["dataDeRegistro"].Str? && d["dataDeRegistro"].s != "" && stored.None?
            ==> ChangeCheck(Answered(200, Some(Obj(d))), stored, parse) == Changed(Obj(d))
  {
  }

  // ---- `processar_dados_due` and the workers ----

  /** The normaliser beyond its first checks: its outcome on a dict payload and the supplements. */
  type Processor = (map<string, Value>, Supplements) -> N.Outcome

  /** The first checks of `processar_dados_due`: a non-dict, empty or numberless payload gives None. */
  function Process(payload: Value, ex: Supplements, normalize: Processor): (r: N.Outcome)
    ensures !(payload.Obj? && TruthyValue(L.GetOr(payload.fields, "numero", Str("")))) ==> r == N.Invalid
  {
    if payload.Obj? && payload.fields != map[] && TruthyValue(L.GetOr(payload.fields, "numero", Str("")))
    then normalize(payload.fields, ex)
    else N.Invalid
  }

  /** Why a DUE settled long ago ended as an error. */
  datatype Fault = CheckFault(error: CheckError) | ProcessingFault | WorkerFault

  /** A worker's result: an error, a change (with its tables when normalised), or no change. */
  datatype Verdict = Errored(fault: Fault) | Modified(tables: Option<N.Tables>) | Same

  /** The replies of the check and of the three supplementary queries of one DUE. */
  datatype OldReplies = OldReplies(check: Call, suspensao: Call, isencao: Call, exigencias: Call)

  /** `processar_due_averbada_antiga`: a failure of the supplementary queries or of the normaliser is an error. */
  function OldVerdict(c: Candidate, r: OldReplies, parse: Parser, flags: FetchFlags, normalize: Processor): Verdict
  {
    match ChangeCheck(r.check, c.registro, parse)
    case Failed(e) => Errored(CheckFault(e))
    case Unchanged => Same
    case Changed(payload) =>
      if !TruthyValue(payload) then Modified(None)
      else match AdditionalData(flags, r.suspensao, r.isencao, r.exigencias)
        case None => Errored(ProcessingFault)
        case Some(ex) =>
          match Process(payload, ex, normalize)
          case KeyError => Errored(ProcessingFault)
          case Invalid => Modified(None)
          case Done(t) => Modified(Some(t))
  }

  /** No rate limit leaves a worker: the check's own and the supplementary queries' both become errors. */
  lemma OldVerdictNeverRateLimits(c: Candidate, r: OldReplies, parse: Parser, flags: FetchFlags, normalize: Processor)
    ensures OldVerdict(c, r, parse, flags, normalize).Same? <==> ChangeCheck(r.check, c.registro, parse).Unchanged?
    ensures OldVerdict(c, r, parse, flags, normalize).Errored? <==>
              ChangeCheck(r.check, c.registro, parse).Failed?
              || (ChangeCheck(r.check, c.registro, parse).Changed? && TruthyValue(ChangeCheck(r.check, c.registro, parse).payload)
                  && (AdditionalData(flags, r.suspensao, r.isencao, r.exigencias).None?
                      || Process(ChangeCheck(r.check, c.registro, parse).payload,
                                 AdditionalData(flags, r.suspensao, r.isencao, r.exigencias).value, normalize).KeyError?))
  {
  }

  /** A result of the pool in completion order: the DUE number and the worker's replies, None when its future failed. */
  function Completion(c: Candidate, r: Option<OldReplies>, parse: Parser, flags: FetchFlags, normalize: Processor): Verdict
  {
    if r.None? then Errored(WorkerFault) else OldVerdict(c, r.value, parse, flags, normalize)
  }

  // ---- Tallying the old settled DUEs ----

  /** The consolidated dict of a run: one empty list for each of the 23 tables. */
  function EmptyRun(): (m: N.Tables)
    ensures forall t: N.Table :: t in m && m[t] == []
  {
    N.AllTablesListed();
    map t | t in N.AllTables :: []
  }

  datatype OldTally = OldTally(tables: N.Tables, unchangedDues: seq<Value>, mudou: nat, semMudanca: nat,
                               erros: nat, faults: seq<(Value, Fault)>)

  function StartTally(): OldTally
  {
    OldTally(EmptyRun(), [], 0, 0, 0, [])
  }

  /** A dict of lists is truthy when it has a key. */
  predicate HasTables(t: Option<N.Tables>)
  {
    t.Some? && t.value != map[]
  }

  /** One result under the lock: exactly one of the three counters moves. */
  function TallyOne(t: OldTally, numero: Value, v: Verdict): OldTally
  {
    match v
    case Errored(f) => t.(erros := t.erros + 1, faults := t.faults + [(numero, f)])
    case Modified(tables) =>
      t.(mudou := t.mudou + 1, tables := if HasTables(tables) then C.Extend(t.tables, tables.value) else t.tables)
    case Same => t.(semMudanca := t.semMudanca + 1, unchangedDues := t.unchangedDues + [numero])
  }

  function TallyAll(t: OldTally, vs: seq<(Value, Verdict)>): OldTally
  {
    if vs == [] then t else TallyOne(TallyAll(t, vs[..|vs| - 1]), vs[|vs| - 1].0, vs[|vs| - 1].1)
  }

  /** The numbers of the results without change, in completion order. */
  function SameNumbers(vs: seq<(Value, Verdict)>): seq<Value>
  {
    if vs == [] then [] else SameNumbers(vs[..|vs| - 1]) + (if vs[|vs| - 1].1.Same? then [vs[|vs| - 1].0] else [])
  }

  /** The tables of the changed results, each appended in completion order. */
  function ChangedTables(acc: N.Tables, vs: seq<(Value, Verdict)>): N.Tables
  {
    if vs == [] then acc
    else
      var v := vs[|vs| - 1].1;
      var t := ChangedTables(acc, vs[..|vs| - 1]);
      if v.Modified? && HasTables(v.tables) then C.Extend(t, v.tables.value) else t
  }

  function CountOf(vs: seq<(Value, Verdict)>, p: Verdict -> bool): nat
  {
    if vs == [] then 0 else CountOf(vs[..|vs| - 1], p) + (if p(vs[|vs| - 1].1) then 1 else 0)
  }

  /**
   * Every result moves exactly one counter; the unchanged numbers are those of
   * the results without change; the error list has one entry per error; the
   * consolidated lists collect the changed results' tables.
   */
  lemma {:induction false} TallyAllMeaning(t: OldTally, vs: seq<(Value, Verdict)>)
    ensures var r := TallyAll(t, vs);
            r.mudou + r.semMudanca + r.erros == t.mudou + t.semMudanca + t.erros + |vs|
            && r.mudou == t.mudou + CountOf(vs, (v: Verdict) => v.Modified?)
            && r.semMudanca == t.semMudanca + CountOf(vs, (v: Verdict) => v.Same?)
            && r.erros == t.erros + CountOf(vs, (v: Verdict) => v.Errored?)
            && r.unchangedDues == t.unchangedDues + SameNumbers(vs)
            && |r.faults| == |t.faults| + CountOf(vs, (v: Verdict) => v.Errored?)
            && r.tables == ChangedTables(t.tables, vs)
  {
    if vs != [] {
      TallyAllMeaning(t, vs[..|vs| - 1]);
    }
  }

  /** `min(max_workers, 5, total)`. */
  function Workers(maxWorkers: int, total: nat): (w: int)
    ensures w <= 5 && w <= total && w <= maxWorkers
    ensures w == 5 || w == total || w == maxWorkers
  {
    if maxWorkers <= 5 && maxWorkers <= total then maxWorkers else if 5 <= total then 5 else total
  }

  /** `processar_dues_averbadas_antigas_paralelo`: the results tallied in the order they complete. */
  method TallyOldDues(completed: seq<(Value, Verdict)>, maxWorkers: int) returns (t: OldTally, workers: int)
    ensures t == TallyAll(StartTally(), completed)
    ensures workers == Workers(maxWorkers, |completed|)
  {
    workers := Workers(maxWorkers, |completed|);
    t := StartTally();
    var tables, unchangedDues, faults := t.tables, [], [];
    var mudou, semMudanca, erros := 0, 0, 0;
    for i := 0 to |completed|
      invariant OldTally(tables, unchangedDues, mudou, semMudanca, erros, faults) == TallyAll(StartTally(), completed[..i])
    {
      assert completed[..i + 1][..i] == completed[..i];
      var (numero, v) := completed[i];
      match v {
        case Errored(f) =>
          erros := erros + 1;
          faults := faults + [(numero, f)];
        case Modified(ts) =>
          mudou := mudou + 1;
          if HasTables(ts) {
            tables := C.Extend(tables, ts.value);
          }
        case Same =>
          semMudanca := semMudanca + 1;
          unchangedDues := unchangedDues + [numero];
      }
    }
    assert completed[..|completed|] == completed;
    t := OldTally(tables, unchangedDues, mudou, semMudanca, erros, faults);
  }

  // ---- Phase 1: orphans, pending and recently settled DUEs ----

  /** The replies of the three detail URLs and of the three supplementary queries of one DUE. */
  datatype PendingReplies = PendingReplies(attempts: seq<L.Attempt>, suspensao: Call, isencao: Call, exigencias: Call)

  /** `baixar_due_pendente_completa`: the normalised tables, None, or a rate limit that propagates. */
  datatype Download = Downloaded(tables: Option<N.Tables>) | DownloadRateLimited

  /** The dict the detail query returns on 401. */
  function ExpiredMarker(numero: Value): Value
  {
    Obj(map["error" := Str("token_expirado"), "numero_due" := numero])
  }

  function DownloadPending(c: Candidate, r: PendingReplies, flags: FetchFlags, normalize: Processor): Download
  {
    var full := L.FullLookup(r.attempts);
    if full.FullNone? then Downloaded(None)
    else
      var payload := if full.FullExpired? then ExpiredMarker(c.numero) else full.data;
      match AdditionalData(flags, r.suspensao, r.isencao, r.exigencias)
      case None => DownloadRateLimited
      case Some(ex) =>
        var o := Process(payload, ex, normalize);
        Downloaded(if o.Done? then Some(o.tables) else None)
  }

  /**
   * A rate limit stops a download only when the detail query found something
   * and a flagged supplementary query hit it (the detail query swallows its
   * own); an expired token in the detail query yields no tables.
   */
  lemma DownloadMeaning(c: Candidate, r: PendingReplies, flags: FetchFlags, normalize: Processor)
    ensures DownloadPending(c, r, flags, normalize).DownloadRateLimited? <==>
              !L.FullLookup(r.attempts).FullNone? && AdditionalData(flags, r.suspensao, r.isencao, r.exigencias).None?
    ensures L.FullLookup(r.attempts).FullExpired? && DownloadPending(c, r, flags, normalize).Downloaded?
            ==> !HasTables(DownloadPending(c, r, flags, normalize).tables)
  {
    assert "numero" !in ExpiredMarker(c.numero).fields;
  }

  /** A supplementary body as the normaliser reads it: its items when it is a list, nothing otherwise. */
  function ListIn(v: Option<Value>): (r: Option<seq<Value>>)
    ensures r.Some? <==> v.Some? && v.value.List?
  {
    if v.Some? && v.value.List? then Some(v.value.items) else None
  }

  /**
   * `processar_dados_due` as written, behind the first checks. `shape` reads
   * a payload dict into the structure the normaliser walks (the field-by-field
   * reading is not modelled).
   */
  function AsWrittenProcessor(shape: map<string, Value> -> N.Due): Processor
  {
    (fields: map<string, Value>, ex: Supplements) =>
      N.NormalizedAsWritten(Some(shape(fields)), N.Extras(ListIn(ex.suspensao), ListIn(ex.isencao), ListIn(ex.exigencias)))
  }

  /**
   * With the normaliser as written, a DUE found by the detail query whose
   * fiscal-requirement query answers one requirement downloads no tables.
   */
  lemma FiscalRequirementFailsAsWritten(c: Candidate, r: PendingReplies, flags: FetchFlags,
                                        shape: map<string, Value> -> N.Due, e: Value)
    requires flags.exigenciasFiscais
    requires !(flags.atosSuspensao && r.suspensao.RateLimitRaised?) && !(flags.atosIsencao && r.isencao.RateLimitRaised?)
    requires r.exigencias == Answered(200, Some(List([e])))
    requires L.FullLookup(r.attempts).FullData? && L.FullLookup(r.attempts).data.Obj?
    requires var fields := L.FullLookup(r.attempts).data.fields;
             TruthyValue(L.GetOr(fields, "numero", Str(""))) && shape(fields).numero != ""
    ensures DownloadPending(c, r, flags, AsWrittenProcessor(shape)) == Downloaded(None)
  {
    var payload := L.FullLookup(r.attempts).data;
    var ex := AdditionalData(flags, r.suspensao, r.isencao, r.exigencias);
    assert ex.Some? && ex.value.exigencias == Some(List([e]));
    ProcessRaises(payload, ex.value, shape, e);
  }

  /** With the normaliser as written, a changed DUE settled long ago with one fiscal requirement ends as an error. */
  lemma SettledFiscalRequirementFailsAsWritten(c: Candidate, r: OldReplies, parse: Parser, flags: FetchFlags,
                                               shape: map<string, Value> -> N.Due, e: Value)
    requires flags.exigenciasFiscais
    requires !(flags.atosSuspensao && r.suspensao.RateLimitRaised?) && !(flags.atosIsencao && r.isencao.RateLimitRaised?)
    requires r.exigencias == Answered(200, Some(List([e])))
    requires ChangeCheck(r.check, c.registro, parse).Changed? && ChangeCheck(r.check, c.registro, parse).payload.Obj?
    requires var fields := ChangeCheck(r.check, c.registro, parse).payload.fields;
             TruthyValue(L.GetOr(fields, "numero", Str(""))) && shape(fields).numero != ""
    ensures OldVerdict(c, r, parse, flags, AsWrittenProcessor(shape)) == Errored(ProcessingFault)
  {
    var payload := ChangeCheck(r.check, c.registro, parse).payload;
    var ex := AdditionalData(flags, r.suspensao, r.isencao, r.exigencias);
    assert ex.Some? && ex.value.exigencias == Some(List([e]));
    ProcessRaises(payload, ex.value, shape, e);
  }

  /** One fiscal requirement among the supplements makes the first checks pass on to a normaliser that raises. */
  lemma ProcessRaises(payload: Value, ex: Supplements, shape: map<string, Value> -> N.Due, e: Value)
    requires payload.Obj? && TruthyValue(L.GetOr(payload.fields, "numero", Str(""))) && shape(payload.fields).numero != ""
    requires ex.exigencias == Some(List([e]))
    ensures Process(payload, ex, AsWrittenProcessor(shape)).KeyError?
  {
    assert payload.fields != map[];
    var x := N.Extras(ListIn(ex.suspensao), ListIn(ex.isencao), ListIn(ex.exigencias));
    assert N.ListOrEmpty(x.exigencias) == [e];
    assert AsWrittenProcessor(shape)(payload.fields, ex) == N.NormalizedAsWritten(Some(shape(payload.fields)), x);
  }

  datatype Counts = Counts(ok: nat, erro: nat)

  datatype Phase1Stats = Phase1Stats(orfas: Counts, pendentes: Counts, recentes: Counts)

  /** What phase 1 gathers: the consolidated lists, the counters, and whether a rate limit stopped it. */
  datatype Phase1 = Phase1(tables: N.Tables, stats: Phase1Stats, rateLimited: bool)

  function StartPhase1(): Phase1
  {
    Phase1(EmptyRun(), Phase1Stats(Counts(0, 0), Counts(0, 0), Counts(0, 0)), false)
  }

  function Bump(c: Counts, ok: bool): Counts
  {
    if ok then c.(ok := c.ok + 1) else c.(erro := c.erro + 1)
  }

  /** The counter of a DUE is found by membership: orphans, then pending, else recently settled. */
  function CountIn(s: Phase1Stats, b: Buckets, c: Candidate, ok: bool): Phase1Stats
  {
    if c in b.orfas then s.(orfas := Bump(s.orfas, ok))
    else if c in b.pendentes then s.(pendentes := Bump(s.pendentes, ok))
    else s.(recentes := Bump(s.recentes, ok))
  }

  function Processed(s: Phase1Stats): nat
  {
    s.orfas.ok + s.orfas.erro + s.pendentes.ok + s.pendentes.erro + s.recentes.ok + s.recentes.erro
  }

  function Updated(s: Phase1Stats): nat
  {
    s.orfas.ok + s.pendentes.ok + s.recentes.ok
  }

  /** The downloads in completion order, up to and excluding the first rate limit. */
  function Phase1From(p: Phase1, b: Buckets, order: seq<(Candidate, Download)>): Phase1
    decreases |order|
  {
    if order == [] then p
    else match order[0].1
      case DownloadRateLimited => p.(rateLimited := true)
      case Downloaded(t) =>
        var ok := HasTables(t);
        Phase1From(p.(tables := if ok then C.Extend(p.tables, t.value) else p.tables,
                      stats := CountIn(p.stats, b, order[0].0, ok)), b, order[1..])
  }

  /** The index of the first rate-limited download, or the length of the order without one. */
  function FirstLimit<K>(order: seq<(K, Download)>): (k: nat)
    ensures k <= |order|
    ensures forall i :: 0 <= i < k ==> order[i].1.Downloaded?
    ensures k < |order| ==> order[k].1.DownloadRateLimited?
  {
    if order == [] || order[0].1.DownloadRateLimited? then 0 else 1 + FirstLimit(order[1..])
  }

  /**
   * Phase 1 counts each DUE before the first rate limit exactly once, stops
   * there, and what follows the first rate limit changes nothing.
   */
  lemma {:induction false} Phase1Meaning(p: Phase1, b: Buckets, order: seq<(Candidate, Download)>)
    requires !p.rateLimited
    ensures Processed(Phase1From(p, b, order).stats) == Processed(p.stats) + FirstLimit(order)
    ensures Phase1From(p, b, order).rateLimited <==> FirstLimit(order) < |order|
    ensures Phase1From(p, b, order) == Phase1From(p, b, order[..FirstLimit(order)]).(rateLimited := FirstLimit(order) < |order|)
    decreases |order|
  {
    if order != [] && order[0].1.Downloaded? {
      var t := order[0].1.tables;
      var ok := HasTables(t);
      var p1 := p.(tables := if ok then C.Extend(p.tables, t.value) else p.tables,
                   stats := CountIn(p.stats, b, order[0].0, ok));
      Phase1Meaning(p1, b, order[1..]);
      assert order[..FirstLimit(order)][1..] == order[1..][..FirstLimit(order[1..])];
    }
  }

  /** The phase-1 loop: it breaks out at the first rate limit. */
  method RefreshPending(b: Buckets, order: seq<(Candidate, Download)>) returns (p: Phase1)
    ensures p == Phase1From(StartPhase1(), b, order)
  {
    p := StartPhase1();
    var i := 0;
    while i < |order|
      invariant 0 <= i <= |order| && !p.rateLimited
      invariant Phase1From(p, b, order[i..]) == Phase1From(StartPhase1(), b, order)
    {
      assert order[i..][1..] == order[i + 1..];
      var (c, d) := order[i];
      if d.DownloadRateLimited? {
        p := p.(rateLimited := true);
        return;
      }
      var ok := HasTables(d.tables);
      if ok {
        p := p.(tables := C.Extend(p.tables, d.tables.value));
      }
      p := p.(stats := CountIn(p.stats, b, c, ok));
      i := i + 1;
    }
  }

  // ---- `_salvar_dados_parciais` ----

  /** The DUEs a consolidated dict holds: its due_principal rows. */
  function PrincipalCount(t: N.Tables): nat
  {
    if N.DuePrincipal in t then |t[N.DuePrincipal]| else 0
  }

  /** The partial save as written: (written, reported). The caller unpacks a None result, which raises and gives 0. */
  function PartialSaveAsWritten(t: N.Tables): (bool, nat)
  {
    if PrincipalCount(t) == 0 then (false, 0) else (true, 0)
  }

  /** The save is attempted iff there is a due_principal row, and it never reports a DUE saved. */
  lemma PartialSaveReportsNothing(t: N.Tables)
    ensures PartialSaveAsWritten(t).0 <==> PrincipalCount(t) > 0
    ensures PartialSaveAsWritten(t).1 == 0
  {
  }

  /** The evident intent: the DUEs written are reported when the write succeeds. */
  function PartialSave(t: N.Tables, writeOk: bool): (r: (bool, nat))
    ensures r.0 <==> PrincipalCount(t) > 0
    ensures r.1 == (if r.0 && writeOk then PrincipalCount(t) else 0)
  {
    if PrincipalCount(t) == 0 then (false, 0) else (true, if writeOk then PrincipalCount(t) else 0)
  }

  /** With one DUE downloaded the as-written save writes it and reports 0; the corrected one reports 1. */
  lemma PartialSaveUndercounts(row: N.Row)
    ensures var t := map[N.DuePrincipal := [row]];
            PartialSaveAsWritten(t) == (true, 0) && PartialSave(t, true) == (true, 1)
  {
  }

  // ---- The run (`atualizar_dues`) ----

  /** The effects of a run on the systems around it. */
  datatype Action = Authenticate | TouchLastSync(numeros: seq<Value>) | PartialWrite(tables: N.Tables) | Save(tables: N.Tables)

  datatype Ending = LoadFailed | NothingToRefresh | NoCredentials | AuthFailed | StoppedByRateLimit | Finished

  /** The summary counters; savings are three requests per DUE found unchangedDues. */
  datatype Report = Report(phase1: Phase1Stats, checked: OldTally, updated: nat, ignored: nat, errors: nat, savedRequests: nat)

  datatype Run = Run(actions: seq<Action>, ending: Ending, report: Option<Report>)

  function Phase1List(b: Buckets): seq<Candidate>
  {
    b.orfas + b.pendentes + b.recentes
  }

  function MakeReport(s: Phase1Stats, t: OldTally): (r: Report)
    ensures r.savedRequests == 3 * r.ignored
  {
    Report(s, t, Updated(s) + t.mudou, t.semMudanca,
           s.orfas.erro + s.pendentes.erro + s.recentes.erro + t.erros, 3 * t.semMudanca)
  }

  function PartialWrites(t: N.Tables): seq<Action>
  {
    if PartialSaveAsWritten(t).0 then [PartialWrite(t)] else []
  }

  /** The phase control: load, authenticate, phase 1, then either the partial save or phase 2 and the normal save. */
  function RefreshRun(loaded: Option<Buckets>, credentials: bool, authOk: bool,
                      pending: seq<(Candidate, Download)>, checked: seq<(Value, Verdict)>): Run
  {
    if loaded.None? then Run([], LoadFailed, None)
    else if Total(loaded.value) == 0 then Run([], NothingToRefresh, None)
    else if !credentials then Run([], NoCredentials, None)
    else if !authOk then Run([Authenticate], AuthFailed, None)
    else
      var b := loaded.value;
      var p := Phase1From(StartPhase1(), b, pending);
      if p.rateLimited then
        Run([Authenticate] + PartialWrites(p.tables), StoppedByRateLimit, Some(MakeReport(p.stats, StartTally())))
      else
        var t := if b.antigas == [] then StartTally() else TallyAll(StartTally(), checked);
        var touch := if t.unchangedDues != [] then [TouchLastSync(t.unchangedDues)] else [];
        var r := MakeReport(p.stats, t);
        var save := if r.updated > 0 then [Save(C.Extend(p.tables, t.tables))] else [];
        Run([Authenticate] + touch + save, Finished, Some(r))
  }

  /**
   * Nothing is contacted without a candidate; authentication comes first; a
   * rate limit in phase 1 leaves out phase 2, the last-sync update and the
   * normal save; the last-sync update lists exactly the unchangedDues DUEs; the
   * normal save happens iff some DUE was updated.
   */
  lemma RefreshRunMeaning(loaded: Option<Buckets>, credentials: bool, authOk: bool,
                          pending: seq<(Candidate, Download)>, checked: seq<(Value, Verdict)>)
    ensures var r := RefreshRun(loaded, credentials, authOk, pending, checked);
            (loaded.Some? && Total(loaded.value) == 0 ==> r.actions == [])
            && (r.actions != [] ==> r.actions[0] == Authenticate)
            && (r.ending == StoppedByRateLimit ==>
                  forall a :: a in r.actions ==> a.Authenticate? || a.PartialWrite?)
            && (forall a :: a in r.actions && a.TouchLastSync? ==>
                  r.ending == Finished && loaded.value.antigas != [] && a.numeros == SameNumbers(checked) && a.numeros != [])
            && (r.ending == Finished ==>
                  ((exists a :: a in r.actions && a.Save?) <==> r.report.value.updated > 0))
            && (r.report.Some? ==> r.report.value.savedRequests == 3 * r.report.value.ignored)
  {
    if loaded.Some? && Total(loaded.value) > 0 && credentials && authOk {
      var b := loaded.value;
      var p := Phase1From(StartPhase1(), b, pending);
      if !p.rateLimited {
        var t := if b.antigas == [] then StartTally() else TallyAll(StartTally(), checked);
        if b.antigas != [] {
          TallyAllMeaning(StartTally(), checked);
        }
        var touch := if t.unchangedDues != [] then [TouchLastSync(t.unchangedDues)] else [];
        var rep := MakeReport(p.stats, t);
        var save := if rep.updated > 0 then [Save(C.Extend(p.tables, t.tables))] else [];
        var actions := [Authenticate] + touch + save;
        assert RefreshRun(loaded, credentials, authOk, pending, checked) == Run(actions, Finished, Some(rep));
        if rep.updated > 0 {
          assert actions[|actions| - 1].Save?;
        } else {
          assert forall a :: a in actions ==> a.Authenticate? || a.TouchLastSync?;
        }
      }
    }
  }

  // ---- Every submitted DUE completes once ----

  /** The DUEs a counter has seen, with tables or without. */
  function Seen(c: Counts): nat
  {
    c.ok + c.erro
  }

  /** Which counter a DUE moves, as `CountIn` decides it by membership. */
  function InOrfas(b: Buckets): Candidate -> bool
  {
    (c: Candidate) => c in b.orfas
  }

  function InPendentes(b: Buckets): Candidate -> bool
  {
    (c: Candidate) => c !in b.orfas && c in b.pendentes
  }

  function InRecentes(b: Buckets): Candidate -> bool
  {
    (c: Candidate) => c !in b.orfas && c !in b.pendentes
  }

  /** Buckets that share no candidate, as the candidate query and the orphan links give them. */
  predicate Disjoint(b: Buckets)
  {
    (forall c :: c in b.orfas ==> c !in b.pendentes && c !in b.recentes)
    && (forall c :: c in b.pendentes ==> c !in b.recentes)
  }

  /** Each counter moves once for every DUE of its bucket completed before the first rate limit. */
  lemma {:induction false} Phase1Shares(p: Phase1, b: Buckets, order: seq<(Candidate, Download)>)
    requires !p.rateLimited
    ensures var q := Phase1From(p, b, order);
            var ks := CM.Keys(order[..FirstLimit(order)]);
            Seen(q.stats.orfas) == Seen(p.stats.orfas) + CM.Count(ks, InOrfas(b))
            && Seen(q.stats.pendentes) == Seen(p.stats.pendentes) + CM.Count(ks, InPendentes(b))
            && Seen(q.stats.recentes) == Seen(p.stats.recentes) + CM.Count(ks, InRecentes(b))
    decreases |order|
  {
    if order != [] && order[0].1.Downloaded? {
      var t := order[0].1.tables;
      var ok := HasTables(t);
      var p1 := p.(tables := if ok then C.Extend(p.tables, t.value) else p.tables,
                   stats := CountIn(p.stats, b, order[0].0, ok));
      Phase1Shares(p1, b, order[1..]);
      var ks := CM.Keys(order[..FirstLimit(order)]);
      assert ks[0] == order[0].0;
      assert ks[1..] == CM.Keys(order[1..][..FirstLimit(order[1..])]);
    }
  }

  /**
   * When the results of phase 1 complete each submitted DUE once (the
   * orphans, the pending and the recently settled), phase 1 never counts
   * more DUEs than were submitted; without a rate limit it counts every one,
   * and with buckets that share no candidate each bucket's counter sees
   * exactly that bucket's DUEs.
   */
  lemma Phase1Covers(b: Buckets, order: seq<(Candidate, Download)>)
    requires CM.CompletesOnce(order, multiset(Phase1List(b)))
    ensures var q := Phase1From(StartPhase1(), b, order);
            Processed(q.stats) <= |Phase1List(b)|
            && (!q.rateLimited ==> Processed(q.stats) == |Phase1List(b)|)
            && (!q.rateLimited && Disjoint(b) ==>
                  Seen(q.stats.orfas) == |b.orfas| && Seen(q.stats.pendentes) == |b.pendentes|
                  && Seen(q.stats.recentes) == |b.recentes|)
  {
    var ks := CM.Keys(order);
    assert |order| == |ks| == |multiset(ks)| == |Phase1List(b)|;
    Phase1Meaning(StartPhase1(), b, order);
    var q := Phase1From(StartPhase1(), b, order);
    if !q.rateLimited && Disjoint(b) {
      assert order[..FirstLimit(order)] == order;
      Phase1Shares(StartPhase1(), b, order);
      BucketShares(b, ks);
    }
  }

  /** Counted over a rearrangement of the submitted DUEs, each membership test picks out its own bucket. */
  lemma BucketShares(b: Buckets, ks: seq<Candidate>)
    requires multiset(ks) == multiset(Phase1List(b)) && Disjoint(b)
    ensures CM.Count(ks, InOrfas(b)) == |b.orfas|
    ensures CM.Count(ks, InPendentes(b)) == |b.pendentes|
    ensures CM.Count(ks, InRecentes(b)) == |b.recentes|
  {
    var all := Phase1List(b);
    forall f | f in {InOrfas(b), InPendentes(b), InRecentes(b)}
      ensures CM.Count(ks, f) == CM.Count(b.orfas, f) + CM.Count(b.pendentes, f) + CM.Count(b.recentes, f)
    {
      CM.CountRearranged(ks, all, f);
      CM.CountAppend(b.orfas + b.pendentes, b.recentes, f);
      CM.CountAppend(b.orfas, b.pendentes, f);
    }
    CM.CountAll(b.orfas, InOrfas(b));
    CM.CountNone(b.pendentes, InOrfas(b));
    CM.CountNone(b.recentes, InOrfas(b));
    CM.CountNone(b.orfas, InPendentes(b));
    CM.CountAll(b.pendentes, InPendentes(b));
    CM.CountNone(b.recentes, InPendentes(b));
    CM.CountNone(b.orfas, InRecentes(b));
    CM.CountNone(b.pendentes, InRecentes(b));
    CM.CountAll(b.recentes, InRecentes(b));
  }

  /** The numbers of the candidates, in order. */
  function Numbers(cs: seq<Candidate>): (r: seq<Value>)
    ensures |r| == |cs|
    ensures forall i :: 0 <= i < |cs| ==> r[i] == cs[i].numero
  {
    seq(|cs|, i requires 0 <= i < |cs| => cs[i].numero)
  }

  /** The DUEs found without change are among the DUEs whose results completed. */
  lemma {:induction false} SameNumbersAmongKeys(vs: seq<(Value, Verdict)>)
    ensures multiset(SameNumbers(vs)) <= multiset(CM.Keys(vs))
  {
    if vs != [] {
      var init := vs[..|vs| - 1];
      SameNumbersAmongKeys(init);
      assert CM.Keys(vs) == CM.Keys(init) + [vs[|vs| - 1].0];
    }
  }

  /**
   * When the results of phase 2 complete each DUE settled long ago once,
   * every such DUE is found changed, unchanged or in error exactly once, and
   * the last-sync update names only such DUEs.
   */
  lemma Phase2Covers(antigas: seq<Candidate>, checked: seq<(Value, Verdict)>)
    requires CM.CompletesOnce(checked, multiset(Numbers(antigas)))
    ensures var t := TallyAll(StartTally(), checked);
            t.mudou + t.semMudanca + t.erros == |antigas|
            && multiset(t.unchangedDues) <= multiset(Numbers(antigas))
  {
    var ks := CM.Keys(checked);
    assert |checked| == |ks| == |multiset(ks)| == |antigas|;
    TallyAllMeaning(StartTally(), checked);
    SameNumbersAmongKeys(checked);
  }

  /**
   * A finished run whose pools complete each submitted DUE once reports
   * every candidate once: each bucket's DUEs under its counter, and every DUE
   * settled long ago as changed, unchanged or in error.
   */
  lemma RefreshCovers(loaded: Option<Buckets>, credentials: bool, authOk: bool,
                      pending: seq<(Candidate, Download)>, checked: seq<(Value, Verdict)>)
    requires loaded.Some? && Disjoint(loaded.value)
    requires CM.CompletesOnce(pending, multiset(Phase1List(loaded.value)))
    requires CM.CompletesOnce(checked, multiset(Numbers(loaded.value.antigas)))
    ensures var r := RefreshRun(loaded, credentials, authOk, pending, checked);
            var b := loaded.value;
            r.ending == Finished ==>
              var rep := r.report.value;
              Seen(rep.phase1.orfas) == |b.orfas| && Seen(rep.phase1.pendentes) == |b.pendentes|
              && Seen(rep.phase1.recentes) == |b.recentes|
              && rep.checked.mudou + rep.checked.semMudanca + rep.checked.erros == |b.antigas|
  {
    var b := loaded.value;
    Phase1Covers(b, pending);
    Phase2Covers(b.antigas, checked);
    if b.antigas == [] {
      assert |checked| == |CM.Keys(checked)| == |multiset(CM.Keys(checked))| == 0;
    }
  }

  /** A phase-1 rate limit stops the run at once: the DUEs completing after it are never counted. */
  lemma RateLimitStopsPhase1(b: Buckets, pending: seq<(Candidate, Download)>, k: nat)
    requires k < |pending| && pending[k].1.DownloadRateLimited?
    ensures Phase1From(StartPhase1(), b, pending) == Phase1From(StartPhase1(), b, pending[..k + 1])
    ensures Phase1From(StartPhase1(), b, pending).rateLimited
    ensures Processed(Phase1From(StartPhase1(), b, pending).stats) <= k
  {
    Phase1Meaning(StartPhase1(), b, pending);
    Phase1Meaning(StartPhase1(), b, pending[..k + 1]);
    var f := FirstLimit(pending);
    assert f <= k;
    assert pending[..k + 1][..f] == pending[..f];
    assert FirstLimit(pending[..k + 1]) == f by {
      FirstLimitOfPrefix(pending, k + 1);
    }
  }

  /** A DUE's replies as `request` gives them. */
  predicate RepliesViaRequest(r: PendingReplies)
  {
    ViaRequest(r.suspensao) && ViaRequest(r.isencao) && ViaRequest(r.exigencias)
  }

  /** The pending downloads, in completion order, of DUEs with their replies. */
  function Downloads(pending: seq<(Candidate, PendingReplies)>, flags: FetchFlags, normalize: Processor)
    : (r: seq<(Candidate, Download)>)
    ensures |r| == |pending|
    ensures forall i :: 0 <= i < |r| ==> r[i] == (pending[i].0, DownloadPending(pending[i].0, pending[i].1, flags, normalize))
  {
    seq(|pending|, i requires 0 <= i < |pending| => (pending[i].0, DownloadPending(pending[i].0, pending[i].1, flags, normalize)))
  }

  /**
   * Since `request` never raises RateLimitError, with replies it gave no
   * download is rate limited: phase 1 never takes its break, counts every
   * DUE, and the run never ends stopped by a rate limit.
   */
  lemma RequestNeverStopsPhase1(loaded: Option<Buckets>, credentials: bool, authOk: bool,
                                pending: seq<(Candidate, PendingReplies)>, flags: FetchFlags, normalize: Processor,
                                checked: seq<(Value, Verdict)>)
    requires forall i :: 0 <= i < |pending| ==> RepliesViaRequest(pending[i].1)
    ensures var order := Downloads(pending, flags, normalize);
            FirstLimit(order) == |order|
            && (loaded.Some? ==> !Phase1From(StartPhase1(), loaded.value, order).rateLimited
                                 && Processed(Phase1From(StartPhase1(), loaded.value, order).stats) == |pending|)
            && RefreshRun(loaded, credentials, authOk, order, checked).ending != StoppedByRateLimit
  {
    var order := Downloads(pending, flags, normalize);
    forall i | 0 <= i < |order|
      ensures order[i].1.Downloaded?
    {
      DownloadMeaning(pending[i].0, pending[i].1, flags, normalize);
    }
    if loaded.Some? {
      Phase1Meaning(StartPhase1(), loaded.value, order);
    }
  }

  lemma {:induction false} FirstLimitOfPrefix<K>(order: seq<(K, Download)>, n: nat)
    requires FirstLimit(order) < n <= |order|
    ensures FirstLimit(order[..n]) == FirstLimit(order)
  {
    if order[0].1.Downloaded? {
      assert order[..n][1..] == order[1..][..n - 1];
      FirstLimitOfPrefix(order[1..], n - 1);
    }
  }

  /** The truncation as the loader performs it, by reassigning the lists. */
  method ApplyCap(b0: Buckets, cap: int) returns (b: Buckets)
    ensures b == Cap(b0, cap)
  {
    b := b0;
    if Total(b) > cap {
      if |b.orfas| > cap {
        b := Buckets(PyPrefix(b.orfas, cap), [], [], []);
      } else {
        var rest := cap - |b.orfas|;
        if |b.pendentes| > rest {
          b := b.(pendentes := PyPrefix(b.pendentes, rest), recentes := [], antigas := []);
        } else {
          var rest2 := rest - |b.pendentes|;
          if |b.recentes| > rest2 {
            b := b.(recentes := PyPrefix(b.recentes, rest2), antigas := []);
          } else {
            b := b.(antigas := PyPrefix(b.antigas, rest2 - |b.recentes|));
          }
        }
      }
    }
  }

  /** `carregar_dues_para_verificar`: None when the database cannot be reached or a query raises. */
  method LoadCandidates(reachable: bool, table: seq<StoredDue>, force: bool, orfas: seq<Value>, now: int,
                        limite: Option<int>) returns (r: Option<Buckets>)
    ensures !reachable ==> r.None?
    ensures reachable ==> r == Some(Cap(Classification(Loaded(table, force, now), orfas, now), CapOf(limite)))
  {
    if !reachable {
      return None;
    }
    var pendentes, recentes, antigas := Partition(Loaded(table, force, now), now);
    var orphans := [];
    for i := 0 to |orfas|
      invariant orphans == Orphans(orfas[..i])
    {
      orphans := orphans + [Candidate(orfas[i], None)];
    }
    assert orfas[..|orfas|] == orfas;
    var b := ApplyCap(Buckets(orphans, pendentes, recentes, antigas), CapOf(limite));
    return Some(b);
  }

  /** `atualizar_dues` once the candidates are loaded: the flag a rate limit sets decides which branch runs. */
  method RefreshDues(loaded: Option<Buckets>, credentials: bool, authOk: bool,
                     pending: seq<(Candidate, Download)>, checked: seq<(Value, Verdict)>) returns (run: Run)
    ensures run == RefreshRun(loaded, credentials, authOk, pending, checked)
  {
    if loaded.None? {
      return Run([], LoadFailed, None);
    }
    var b := loaded.value;
    if Total(b) == 0 {
      return Run([], NothingToRefresh, None);
    }
    if !credentials {
      return Run([], NoCredentials, None);
    }
    var actions := [Authenticate];
    if !authOk {
      return Run(actions, AuthFailed, None);
    }
    var p := RefreshPending(b, pending);
    if p.rateLimited {
      actions := actions + PartialWrites(p.tables);
      return Run(actions, StoppedByRateLimit, Some(MakeReport(p.stats, StartTally())));
    }
    var t := StartTally();
    if b.antigas != [] {
      var workers;
      t, workers := TallyOldDues(checked, 8);
      if t.unchangedDues != [] {
        actions := actions + [TouchLastSync(t.unchangedDues)];
      }
    }
    var report := MakeReport(p.stats, t);
    if report.updated > 0 {
      actions := actions + [Save(C.Extend(p.tables, t.tables))];
    }
    return Run(actions, Finished, Some(report));
  }
}
