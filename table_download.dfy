// The download of every support table (`baixar_tabelas_suporte` in
// src/api/siscomex/tabx.py and in download_tabelas.py): the results in the
// order the pool completes them are consolidated structure by structure, a
// rate limit stops everything, token-expired tables are retried once after a
// new login, and the consolidated structures are saved. The listing, the
// logins, the operator's answer and every table result are inputs.
module TableDownload {
  import opened Wrappers
  import DV = DbValues
  import L = DueLookup
  import S = SupportTables

  // ---- dados_consolidados ----

  /** The consolidated structures in insertion order, each with its rows. */
  type Consolidated = seq<(string, seq<S.Row>)>

  function KeysOf(c: Consolidated): set<string>
  {
    if c == [] then {} else {c[0].0} + KeysOf(c[1..])
  }

  /** No structure occurs twice. */
  predicate DistinctKeys(c: Consolidated)
  {
    c == [] || (c[0].0 !in KeysOf(c[1..]) && DistinctKeys(c[1..]))
  }

  /** `dados_consolidados.get(k, [])`. */
  function RowsOf(c: Consolidated, k: string): seq<S.Row>
  {
    if c == [] then [] else if c[0].0 == k then c[0].1 else RowsOf(c[1..], k)
  }

  /** `dados_consolidados[k].extend(rows)`, creating the structure at the end when it is new. */
  function AddRows(c: Consolidated, k: string, rows: seq<S.Row>): (r: Consolidated)
    ensures KeysOf(r) == KeysOf(c) + {k}
    ensures DistinctKeys(c) ==> DistinctKeys(r)
    ensures RowsOf(r, k) == RowsOf(c, k) + rows
    ensures forall x :: x != k ==> RowsOf(r, x) == RowsOf(c, x)
    ensures k !in KeysOf(c) ==> r == c + [(k, rows)]
  {
    if c == [] then [(k, rows)]
    else if c[0].0 == k then [(k, c[0].1 + rows)] + c[1..]
    else
      var t := AddRows(c[1..], k, rows);
      var r := [c[0]] + t;
      assert r[1..] == t;
      assert c == [c[0]] + c[1..];
      r
  }

  /** The rows a normalised table contributes to structure `k`. */
  function Contributed(s: S.Structures, k: string): seq<S.Row>
  {
    if s == [] then [] else Contributed(s[..|s| - 1], k) + (if s[|s| - 1].0 == k then s[|s| - 1].1 else [])
  }

  /** The consolidation loop for one normalised table. */
  function Merge(c: Consolidated, s: S.Structures): Consolidated
  {
    if s == [] then c else AddRows(Merge(c, s[..|s| - 1]), s[|s| - 1].0, s[|s| - 1].1)
  }

  function StructureNames(s: S.Structures): set<string>
  {
    set i | 0 <= i < |s| :: s[i].0
  }

  /** Merging adds the table's structures and keeps every structure once. */
  lemma {:induction false} MergeKeys(c: Consolidated, s: S.Structures)
    ensures KeysOf(Merge(c, s)) == KeysOf(c) + StructureNames(s)
    ensures DistinctKeys(c) ==> DistinctKeys(Merge(c, s))
  {
    if s != [] {
      var init := s[..|s| - 1];
      MergeKeys(c, init);
      assert Merge(c, s) == AddRows(Merge(c, init), s[|s| - 1].0, s[|s| - 1].1);
      assert StructureNames(s) == StructureNames(init) + {s[|s| - 1].0} by {
        assert forall i :: 0 <= i < |init| ==> init[i] == s[i];
      }
    }
  }

  /** Merging appends the table's rows to each structure, leaving the rows already there first. */
  lemma {:induction false} MergeRows(c: Consolidated, s: S.Structures)
    ensures forall k :: RowsOf(Merge(c, s), k) == RowsOf(c, k) + Contributed(s, k)
  {
    if s != [] {
      var init := s[..|s| - 1];
      var last := s[|s| - 1];
      MergeRows(c, init);
      var m := Merge(c, init);
      assert Merge(c, s) == AddRows(m, last.0, last.1);
      forall k
        ensures RowsOf(Merge(c, s), k) == RowsOf(c, k) + Contributed(s, k)
      {
        assert Contributed(s, k) == Contributed(init, k) + (if last.0 == k then last.1 else []);
        if last.0 == k {
          assert RowsOf(Merge(c, s), k) == RowsOf(m, k) + last.1;
        } else {
          assert RowsOf(Merge(c, s), k) == RowsOf(m, k);
        }
      }
    }
  }

  // ---- The first pass over the completed results ----

  /** The loop's state: structures, tables to retry, results looked at, and whether a rate limit stopped it. */
  datatype Pass = Pass(consolidated: Consolidated, expired: seq<string>, processed: nat, rateLimited: bool)

  function StartPass(): Pass
  {
    Pass([], [], 0, false)
  }

  /** What a result adds to the structures: its normalised tables, or nothing (a normaliser error is caught here). */
  function Contribution(res: S.TableResult): S.Structures
  {
    match res
    case Fetched(n, m, d) =>
      (match S.Normalize(n, m, d)
       case Some(s) => s
       case None => [])
    case _ => []
  }

  /** One completed future: a rate limit marks the stop, an expired token queues the table, a fetched table is merged. */
  function Step(p: Pass, nome: string, res: S.TableResult): Pass
  {
    var q := p.(processed := p.processed + 1);
    match res
    case RateLimited(_) => q.(rateLimited := true)
    case TokenExpired(_) => q.(expired := q.expired + [nome])
    case _ => q.(consolidated := Merge(q.consolidated, Contribution(res)))
  }

  /** The results in completion order, up to and including the first rate limit. */
  function FirstPass(p: Pass, order: seq<(string, S.TableResult)>): Pass
    decreases |order|
  {
    if order == [] then p
    else
      var q := Step(p, order[0].0, order[0].1);
      if q.rateLimited then q else FirstPass(q, order[1..])
  }

  /** The position of the first rate limit, `|order|` when there is none. */
  function FirstLimit(order: seq<(string, S.TableResult)>): (n: nat)
    ensures n <= |order|
    ensures forall i :: 0 <= i < n ==> !order[i].1.RateLimited?
    ensures n < |order| ==> order[n].1.RateLimited?
  {
    if order == [] then 0
    else if order[0].1.RateLimited? then 0
    else
      var n := FirstLimit(order[1..]);
      assert forall i :: 1 <= i < |order| ==> order[i] == order[1..][i - 1];
      1 + n
  }

  /** The tables whose token expired, in completion order. */
  function ExpiredIn(order: seq<(string, S.TableResult)>): seq<string>
  {
    if order == [] then [] else (if order[0].1.TokenExpired? then [order[0].0] else []) + ExpiredIn(order[1..])
  }

  /** The rows the results give structure `k`, in completion order. */
  function FetchedRows(order: seq<(string, S.TableResult)>, k: string): seq<S.Row>
  {
    if order == [] then [] else Contributed(Contribution(order[0].1), k) + FetchedRows(order[1..], k)
  }

  /** The loop stops iff a result is a rate limit, after looking at exactly the results up to that one. */
  lemma {:induction false} FirstPassStops(p: Pass, order: seq<(string, S.TableResult)>)
    requires !p.rateLimited
    ensures FirstPass(p, order).rateLimited <==> FirstLimit(order) < |order|
    ensures FirstPass(p, order).processed ==
              p.processed + (if FirstLimit(order) < |order| then FirstLimit(order) + 1 else |order|)
    decreases |order|
  {
    if order != [] {
      var q := Step(p, order[0].0, order[0].1);
      if !q.rateLimited {
        FirstPassStops(q, order[1..]);
      }
    }
  }

  /** Without a rate limit, every table whose token expired is queued, in completion order. */
  lemma {:induction false} FirstPassQueues(p: Pass, order: seq<(string, S.TableResult)>)
    requires !p.rateLimited && FirstLimit(order) == |order|
    ensures FirstPass(p, order).expired == p.expired + ExpiredIn(order)
    decreases |order|
  {
    if order != [] {
      var q := Step(p, order[0].0, order[0].1);
      StepQueues(p, order[0].0, order[0].1);
      assert !order[0].1.RateLimited?;
      assert FirstLimit(order[1..]) == |order[1..]|;
      FirstPassQueues(q, order[1..]);
      assert ExpiredIn(order) == (if order[0].1.TokenExpired? then [order[0].0] else []) + ExpiredIn(order[1..]);
    }
  }

  /** One step queues the table exactly when its token expired, and stops exactly on a rate limit. */
  lemma StepQueues(p: Pass, nome: string, res: S.TableResult)
    requires !p.rateLimited
    ensures Step(p, nome, res).expired == p.expired + (if res.TokenExpired? then [nome] else [])
    ensures Step(p, nome, res).rateLimited <==> res.RateLimited?
  {
  }

  /** Without a rate limit, every fetched table's rows are appended to its structures, in completion order. */
  lemma {:induction false} FirstPassRows(p: Pass, order: seq<(string, S.TableResult)>)
    requires !p.rateLimited && FirstLimit(order) == |order|
    ensures forall k :: RowsOf(FirstPass(p, order).consolidated, k) == RowsOf(p.consolidated, k) + FetchedRows(order, k)
    decreases |order|
  {
    if order != [] {
      var q := Step(p, order[0].0, order[0].1);
      var more := Contribution(order[0].1);
      assert !q.rateLimited;
      MergeRows(p.consolidated, more);
      if order[0].1.TokenExpired? {
        assert more == [] && q.consolidated == p.consolidated;
      } else {
        assert q.consolidated == Merge(p.consolidated, more);
      }
      FirstPassRows(q, order[1..]);
    }
  }

  /** The loop keeps every structure once. */
  lemma {:induction false} FirstPassDistinct(p: Pass, order: seq<(string, S.TableResult)>)
    requires DistinctKeys(p.consolidated)
    ensures DistinctKeys(FirstPass(p, order).consolidated)
    decreases |order|
  {
    if order != [] {
      var q := Step(p, order[0].0, order[0].1);
      MergeKeys(p.consolidated, Contribution(order[0].1));
      if !q.rateLimited {
        FirstPassDistinct(q, order[1..]);
      }
    }
  }

  /** What comes after the first rate limit is never looked at. */
  lemma {:induction false} LaterResultsIgnored(p: Pass, order: seq<(string, S.TableResult)>, more: seq<(string, S.TableResult)>)
    requires FirstLimit(order) < |order|
    ensures FirstPass(p, order + more) == FirstPass(p, order)
    decreases |order|
  {
    assert (order + more)[0] == order[0];
    if !order[0].1.RateLimited? {
      assert (order + more)[1..] == order[1..] + more;
      var q := Step(p, order[0].0, order[0].1);
      if !q.rateLimited {
        LaterResultsIgnored(q, order[1..], more);
      }
    }
  }

  /** The `as_completed` loop. */
  method RunFirstPass(order: seq<(string, S.TableResult)>) returns (p: Pass)
    ensures p == FirstPass(StartPass(), order)
  {
    p := StartPass();
    var i := 0;
    while i < |order|
      invariant 0 <= i <= |order| && !p.rateLimited
      invariant FirstPass(p, order[i..]) == FirstPass(StartPass(), order)
    {
      assert order[i..][1..] == order[i + 1..];
      var (nome, res) := order[i];
      ghost var before := p;
      p := p.(processed := p.processed + 1);
      if res.RateLimited? {
        p := p.(rateLimited := true);
        assert p == Step(before, nome, res);
        break;
      }
      if res.TokenExpired? {
        p := p.(expired := p.expired + [nome]);
      } else {
        p := p.(consolidated := Merge(p.consolidated, Contribution(res)));
      }
      assert p == Step(before, nome, res);
      i := i + 1;
    }
  }

  // ---- Retrying the tables whose token expired ----

  /** A listed table: its descriptor's `nome`, None when the key is absent. */
  datatype TableInfo = TableInfo(nome: Option<string>)

  /** `next((t for t in tabelas if t.get('nome') == nome), {})` finds a descriptor. */
  predicate Listed(tabelas: seq<TableInfo>, nome: string)
  {
    exists i :: 0 <= i < |tabelas| && tabelas[i].nome == Some(nome)
  }

  /**
   * The retry pass as the scripts write it: every result other than None
   * goes to the normaliser, so a marker dict (still expired, or now rate
   * limited) raises KeyError on `nome_tabela`, as does a normaliser error;
   * nothing catches either.
   */
  function ReprocessAsWritten(c: Consolidated, expired: seq<string>, tabelas: seq<TableInfo>,
                              retry: string -> S.TableResult): Option<Consolidated>
    decreases |expired|
  {
    if expired == [] then Some(c)
    else if !Listed(tabelas, expired[0]) then ReprocessAsWritten(c, expired[1..], tabelas, retry)
    else match retry(expired[0])
      case NoResult => ReprocessAsWritten(c, expired[1..], tabelas, retry)
      case Fetched(n, m, d) =>
        (match S.Normalize(n, m, d)
         case None => None
         case Some(s) => ReprocessAsWritten(Merge(c, s), expired[1..], tabelas, retry))
      case _ => None
  }

  /** The retry pass as intended: only a table that is fetched and normalised adds rows; nothing stops the pass. */
  function Reprocess(c: Consolidated, expired: seq<string>, tabelas: seq<TableInfo>,
                     retry: string -> S.TableResult): Consolidated
    decreases |expired|
  {
    if expired == [] then c
    else
      var more := if Listed(tabelas, expired[0]) then Contribution(retry(expired[0])) else [];
      Reprocess(Merge(c, more), expired[1..], tabelas, retry)
  }

  /** The rows the retried tables give structure `k`, in queue order. */
  function RetriedRows(expired: seq<string>, tabelas: seq<TableInfo>, retry: string -> S.TableResult, k: string): seq<S.Row>
  {
    if expired == [] then []
    else
      Contributed(if Listed(tabelas, expired[0]) then Contribution(retry(expired[0])) else [], k)
      + RetriedRows(expired[1..], tabelas, retry, k)
  }

  /** A retry whose result the scripts can take: no marker, and a fetched table that normalises. */
  predicate Usable(nome: string, tabelas: seq<TableInfo>, retry: string -> S.TableResult)
  {
    Listed(tabelas, nome) ==>
      (retry(nome).NoResult? || (retry(nome).Fetched? && S.Normalize(retry(nome).nome, retry(nome).metadados, retry(nome).dados).Some?))
  }

  /** The retry pass keeps every structure of the first pass, each once. */
  lemma {:induction false} ReprocessKeys(c: Consolidated, expired: seq<string>, tabelas: seq<TableInfo>,
                                         retry: string -> S.TableResult)
    ensures KeysOf(c) <= KeysOf(Reprocess(c, expired, tabelas, retry))
    ensures DistinctKeys(c) ==> DistinctKeys(Reprocess(c, expired, tabelas, retry))
    decreases |expired|
  {
    if expired != [] {
      var more := if Listed(tabelas, expired[0]) then Contribution(retry(expired[0])) else [];
      MergeKeys(c, more);
      ReprocessKeys(Merge(c, more), expired[1..], tabelas, retry);
    }
  }

  /** The retry pass appends each retried table's rows after the rows already consolidated. */
  lemma {:induction false} ReprocessRows(c: Consolidated, expired: seq<string>, tabelas: seq<TableInfo>,
                                         retry: string -> S.TableResult)
    ensures forall k :: RowsOf(Reprocess(c, expired, tabelas, retry), k) == RowsOf(c, k) + RetriedRows(expired, tabelas, retry, k)
    decreases |expired|
  {
    if expired != [] {
      var more := if Listed(tabelas, expired[0]) then Contribution(retry(expired[0])) else [];
      MergeRows(c, more);
      ReprocessRows(Merge(c, more), expired[1..], tabelas, retry);
    }
  }

  /** When every retry is usable, the pass as written gives the intended structures. */
  lemma {:induction false} ReprocessAgrees(c: Consolidated, expired: seq<string>, tabelas: seq<TableInfo>,
                                           retry: string -> S.TableResult)
    requires forall i :: 0 <= i < |expired| ==> Usable(expired[i], tabelas, retry)
    ensures ReprocessAsWritten(c, expired, tabelas, retry) == Some(Reprocess(c, expired, tabelas, retry))
    decreases |expired|
  {
    if expired != [] {
      var more := if Listed(tabelas, expired[0]) then Contribution(retry(expired[0])) else [];
      assert Usable(expired[0], tabelas, retry);
      assert forall i :: 0 <= i < |expired[1..]| ==> expired[1..][i] == expired[i + 1];
      ReprocessAgrees(Merge(c, more), expired[1..], tabelas, retry);
      if !Listed(tabelas, expired[0]) || retry(expired[0]).NoResult? {
        assert more == [];
        assert Merge(c, more) == c;
      }
    }
  }

  /** A table whose token is still expired on the retry ends the whole download as written, and is skipped as intended. */
  lemma ExpiredAgainCrashes(c: Consolidated, nome: string, tabelas: seq<TableInfo>, retry: string -> S.TableResult)
    requires Listed(tabelas, nome) && retry(nome) == S.TokenExpired(nome)
    ensures ReprocessAsWritten(c, [nome], tabelas, retry) == None
    ensures Reprocess(c, [nome], tabelas, retry) == c
  {
    assert Merge(c, []) == c;
  }

  /** The pass as written raises exactly when some queued retry is not usable. */
  lemma {:induction false} ReprocessFails(c: Consolidated, expired: seq<string>, tabelas: seq<TableInfo>,
                                          retry: string -> S.TableResult)
    ensures ReprocessAsWritten(c, expired, tabelas, retry).None? <==>
            exists i :: 0 <= i < |expired| && !Usable(expired[i], tabelas, retry)
    decreases |expired|
  {
    if expired != [] {
      assert forall i :: 0 <= i < |expired[1..]| ==> expired[1..][i] == expired[i + 1];
      if Usable(expired[0], tabelas, retry) {
        var next := if Listed(tabelas, expired[0]) && retry(expired[0]).Fetched?
                    then Merge(c, S.Normalize(retry(expired[0]).nome, retry(expired[0]).metadados, retry(expired[0]).dados).value)
                    else c;
        assert ReprocessAsWritten(c, expired, tabelas, retry) == ReprocessAsWritten(next, expired[1..], tabelas, retry);
        ReprocessFails(next, expired[1..], tabelas, retry);
        if exists i :: 0 <= i < |expired| && !Usable(expired[i], tabelas, retry) {
          var i :| 0 <= i < |expired| && !Usable(expired[i], tabelas, retry);
          assert i > 0 && !Usable(expired[1..][i - 1], tabelas, retry);
        }
      }
    }
  }

  /** The retry loop as the scripts write it: a marker or a normaliser error raises out of it. */
  method RunReprocess(c: Consolidated, expired: seq<string>, tabelas: seq<TableInfo>, retry: string -> S.TableResult)
    returns (r: Option<Consolidated>)
    ensures r == ReprocessAsWritten(c, expired, tabelas, retry)
  {
    var acc := c;
    var i := 0;
    while i < |expired|
      invariant 0 <= i <= |expired|
      invariant ReprocessAsWritten(acc, expired[i..], tabelas, retry) == ReprocessAsWritten(c, expired, tabelas, retry)
    {
      assert expired[i..][1..] == expired[i + 1..];
      var nome := expired[i];
      if Listed(tabelas, nome) {
        match retry(nome)
        case NoResult =>
        case Fetched(n, m, d) =>
          var tables := S.Normalize(n, m, d);
          if tables.None? {
            return None;
          }
          acc := Merge(acc, tables.value);
        case RateLimited(_) =>
          return None;
        case TokenExpired(_) =>
          return None;
      }
      i := i + 1;
    }
    return Some(acc);
  }

  // ---- Saving (download_tabelas.py) ----

  /** One CSV written: the structure's file name and its row count. */
  datatype SavedFile = SavedFile(name: string, rows: nat)

  /** The files `salvar_tabelas_suporte` writes: one per non-empty structure, in order. */
  function Files(c: Consolidated): seq<SavedFile>
  {
    if c == [] then []
    else Files(c[..|c| - 1]) + (if c[|c| - 1].1 != [] then [SavedFile(c[|c| - 1].0 + ".csv", |c[|c| - 1].1|)] else [])
  }

  /** The rows of every structure. */
  function RecordCount(c: Consolidated): nat
  {
    if c == [] then 0 else RecordCount(c[..|c| - 1]) + |c[|c| - 1].1|
  }

  function FileRows(fs: seq<SavedFile>): nat
  {
    if fs == [] then 0 else FileRows(fs[..|fs| - 1]) + fs[|fs| - 1].rows
  }

  /** Only non-empty structures become files, and the files hold every row: empty structures add nothing. */
  lemma {:induction false} FilesMeaning(c: Consolidated)
    ensures |Files(c)| == CountWhere(c, (e: (string, seq<S.Row>)) => e.1 != [])
    ensures FileRows(Files(c)) == RecordCount(c)
    ensures forall f :: f in Files(c) ==> f.rows > 0
  {
    if c != [] {
      var init := c[..|c| - 1];
      FilesMeaning(init);
      var extra := if c[|c| - 1].1 != [] then [SavedFile(c[|c| - 1].0 + ".csv", |c[|c| - 1].1|)] else [];
      var fs := Files(init) + extra;
      if extra != [] {
        assert fs[..|fs| - 1] == Files(init);
      } else {
        assert fs == Files(init);
      }
    }
  }

  /** The saving loop and its totals. */
  method SaveStructures(c: Consolidated) returns (files: seq<SavedFile>, totalFiles: nat, totalRecords: nat)
    ensures files == Files(c)
    ensures totalFiles == |Files(c)|
    ensures totalRecords == RecordCount(c)
  {
    files, totalFiles, totalRecords := [], 0, 0;
    var i := 0;
    while i < |c|
      invariant 0 <= i <= |c|
      invariant files == Files(c[..i]) && totalFiles == |files| && totalRecords == RecordCount(c[..i])
    {
      assert c[..i + 1][..i] == c[..i];
      var (nome, rows) := c[i];
      if rows != [] {
        files := files + [SavedFile(nome + ".csv", |rows|)];
        totalFiles := totalFiles + 1;
      }
      totalRecords := totalRecords + |rows|;
      i := i + 1;
    }
    assert c[..|c|] == c;
  }

  /** A data structure, as opposed to a metadata one. */
  predicate IsData(e: (string, seq<S.Row>))
  {
    !EndsWith(e.0, "_metadados")
  }

  /** The rows of the data structures, the final statistics' record total. */
  function DataRecords(c: Consolidated): nat
  {
    if c == [] then 0 else DataRecords(c[..|c| - 1]) + (if IsData(c[|c| - 1]) then |c[|c| - 1].1| else 0)
  }

  /** The rows of the metadata structures. */
  function MetaRecords(c: Consolidated): nat
  {
    if c == [] then 0 else MetaRecords(c[..|c| - 1]) + (if IsData(c[|c| - 1]) then 0 else |c[|c| - 1].1|)
  }

  /** The final statistics split the saved rows between data and metadata structures. */
  lemma {:induction false} StatisticsMeaning(c: Consolidated)
    ensures DataRecords(c) + MetaRecords(c) == RecordCount(c)
    ensures CountWhere(c, IsData) <= |c|
  {
    if c != [] {
      StatisticsMeaning(c[..|c| - 1]);
    }
  }

  // ---- The summary (download_tabelas.py) ----

  /** Python's ordering of strings: code point by code point, a prefix first. */
  predicate StrLe(a: string, b: string)
  {
    a == [] || (b != [] && (a[0] < b[0] || (a[0] == b[0] && StrLe(a[1..], b[1..]))))
  }

  lemma StrLeTotal(a: string, b: string)
    ensures StrLe(a, b) || StrLe(b, a)
  {
    if a != [] && b != [] && a[0] == b[0] {
      StrLeTotal(a[1..], b[1..]);
    }
  }

  predicate Sorted(s: seq<string>)
  {
    forall i :: 0 <= i < |s| - 1 ==> StrLe(s[i], s[i + 1])
  }

  function Insert(x: string, s: seq<string>): (r: seq<string>)
    ensures multiset(r) == multiset(s) + multiset{x}
    ensures r != [] && (r[0] == x || (s != [] && r[0] == s[0]))
    ensures Sorted(s) ==> Sorted(r)
  {
    if s == [] then [x]
    else if StrLe(x, s[0]) then [x] + s
    else
      StrLeTotal(x, s[0]);
      var t := Insert(x, s[1..]);
      assert s == [s[0]] + s[1..];
      assert Sorted(s) ==> Sorted(s[1..]);
      [s[0]] + t
  }

  /** `sorted(...)`. */
  function Sort(s: seq<string>): (r: seq<string>)
    ensures multiset(r) == multiset(s)
    ensures Sorted(r)
  {
    if s == [] then [] else
      assert s == [s[0]] + s[1..];
      Insert(s[0], Sort(s[1..]))
  }

  predicate EndsWith(s: string, suffix: string)
  {
    |suffix| <= |s| && s[|s| - |suffix|..] == suffix
  }

  /** `s.replace(pat, '')`: every occurrence removed, scanning left to right. */
  function RemoveAll(s: string, pat: string): (r: string)
    requires pat != []
    ensures |r| <= |s|
    decreases |s|
  {
    if |s| < |pat| then s
    else if s[..|pat|] == pat then RemoveAll(s[|pat|..], pat)
    else [s[0]] + RemoveAll(s[1..], pat)
  }

  /** The pattern occurs in `s` at position `i`. */
  predicate OccursAt(s: string, pat: string, i: nat)
  {
    i + |pat| <= |s| && s[i..i + |pat|] == pat
  }

  /** A name with no occurrence of the pattern is left as it is. */
  lemma {:induction false} RemoveAbsent(s: string, pat: string)
    requires pat != []
    requires forall i: nat :: !OccursAt(s, pat, i)
    ensures RemoveAll(s, pat) == s
    decreases |s|
  {
    if |s| >= |pat| {
      assert !OccursAt(s, pat, 0);
      assert s[0..|pat|] == s[..|pat|];
      forall i: nat
        ensures !OccursAt(s[1..], pat, i)
      {
        assert !OccursAt(s, pat, i + 1);
        if i + |pat| <= |s[1..]| {
          assert s[1..][i..i + |pat|] == s[i + 1..i + 1 + |pat|];
        }
      }
      RemoveAbsent(s[1..], pat);
    }
  }

  function UpperChar(c: char): char
  {
    if 'a' <= c <= 'z' then (c as int - 32) as char else c
  }

  function Upper(s: string): (r: string)
    ensures |r| == |s|
  {
    seq(|s|, i requires 0 <= i < |s| => UpperChar(s[i]))
  }

  /** The main table of a structure: its name with "tabela_" removed. */
  function Principal(k: string): string
  {
    RemoveAll(k, "tabela_")
  }

  /** The main tables, each once, in the insertion order of their structures. */
  function PrincipalsIn(c: Consolidated): (r: seq<string>)
    ensures forall t :: t in r <==> exists i :: 0 <= i < |c| && !EndsWith(c[i].0, "_metadados") && Principal(c[i].0) == t
  {
    if c == [] then []
    else
      var rest := PrincipalsIn(c[1..]);
      assert forall i :: 1 <= i < |c| ==> c[i] == c[1..][i - 1];
      (if !EndsWith(c[0].0, "_metadados") then [Principal(c[0].0)] else []) + rest
  }

  /** The summary line of one main table. */
  datatype SummaryRow = SummaryRow(nomeTabela: string, registrosDados: nat, camposMetadados: nat,
                                   arquivoDados: string, arquivoMetadados: string)

  function SummaryOf(c: Consolidated, t: string): SummaryRow
  {
    SummaryRow(Upper(t), |RowsOf(c, "tabela_" + t)|, |RowsOf(c, "tabela_" + t + "_metadados")|,
               "tabela_" + t + ".csv", "tabela_" + t + "_metadados.csv")
  }

  /** A main table is summarised when its data or metadata structure has rows. */
  predicate HasRows(c: Consolidated, t: string)
  {
    RowsOf(c, "tabela_" + t) != [] || RowsOf(c, "tabela_" + t + "_metadados") != []
  }

  function SummaryRows(c: Consolidated, names: seq<string>): seq<SummaryRow>
  {
    if names == [] then []
    else SummaryRows(c, names[..|names| - 1])
         + (if HasRows(c, names[|names| - 1]) then [SummaryOf(c, names[|names| - 1])] else [])
  }

  /** The sorted main tables `criar_resumo_tabelas_suporte` walks. */
  function SummaryNames(c: Consolidated): seq<string>
  {
    Sort(L.FirstOccurrences(PrincipalsIn(c), {}))
  }

  /** `criar_resumo_tabelas_suporte`: the summary lines, written only when there is one. */
  function Summary(c: Consolidated): seq<SummaryRow>
  {
    SummaryRows(c, SummaryNames(c))
  }

  /**
   * The main tables are the structures not ending in "_metadados" with
   * "tabela_" removed, each once and in sorted order; the summary has a line
   * for exactly those with rows, counting their data and metadata rows.
   */
  lemma SummaryMeaning(c: Consolidated)
    ensures Sorted(SummaryNames(c)) && L.Distinct(SummaryNames(c))
    ensures forall t :: t in SummaryNames(c) <==>
              exists i :: 0 <= i < |c| && !EndsWith(c[i].0, "_metadados") && Principal(c[i].0) == t
    ensures forall r :: r in Summary(c) <==> exists t :: t in SummaryNames(c) && HasRows(c, t) && r == SummaryOf(c, t)
  {
    var d := L.FirstOccurrences(PrincipalsIn(c), {});
    var s := SummaryNames(c);
    assert forall t :: t in s <==> t in multiset(s);
    assert forall t :: t in d <==> t in multiset(d);
    SortedDistinct(d, s);
    SummaryRowsMeaning(c, s);
  }

  lemma SortedDistinct(d: seq<string>, s: seq<string>)
    requires L.Distinct(d) && multiset(s) == multiset(d)
    ensures L.Distinct(s)
  {
    DistinctMultiset(d);
    forall i, j | 0 <= i < j < |s|
      ensures s[i] != s[j]
    {
      TwoCopies(s, i, j);
    }
  }

  /** Two equal elements count twice. */
  lemma TwoCopies(s: seq<string>, i: nat, j: nat)
    requires i < j < |s|
    ensures s[i] == s[j] ==> multiset(s)[s[i]] >= 2
  {
    assert s == s[..j] + s[j..];
    assert s[..j][i] == s[i];
    assert s[j..][0] == s[j];
    assert s[i] in multiset(s[..j]);
    assert s[j] in multiset(s[j..]);
  }

  lemma {:induction false} DistinctMultiset(d: seq<string>)
    requires L.Distinct(d)
    ensures forall x :: multiset(d)[x] <= 1
  {
    if d != [] {
      assert L.Distinct(d[1..]) by {
        forall i, j | 0 <= i < j < |d[1..]| ensures d[1..][i] != d[1..][j] {
          assert d[1..][i] == d[i + 1] && d[1..][j] == d[j + 1];
        }
      }
      DistinctMultiset(d[1..]);
      assert d == [d[0]] + d[1..];
      assert d[0] !in d[1..] by {
        forall i | 0 <= i < |d[1..]| ensures d[1..][i] != d[0] {
          assert d[1..][i] == d[i + 1];
        }
      }
    }
  }

  lemma {:induction false} SummaryRowsMeaning(c: Consolidated, names: seq<string>)
    ensures forall r :: r in SummaryRows(c, names) <==> exists t :: t in names && HasRows(c, t) && r == SummaryOf(c, t)
  {
    if names != [] {
      var init := names[..|names| - 1];
      SummaryRowsMeaning(c, init);
      assert forall x :: x in names <==> x in init || x == names[|names| - 1];
    }
  }

  /** What the first loop adds for one structure. */
  function AddPrincipal(ps: seq<string>, k: string): seq<string>
  {
    if !EndsWith(k, "_metadados") && Principal(k) !in ps then ps + [Principal(k)] else ps
  }

  /** One step of the first loop keeps the list free of repeats and on its way to the whole set. */
  lemma CollectStep(ps: seq<string>, c: Consolidated, i: nat)
    requires i < |c|
    requires L.FirstOccurrences(ps, {}) == ps
    ensures L.FirstOccurrences(AddPrincipal(ps, c[i].0), {}) == AddPrincipal(ps, c[i].0)
    ensures L.FirstOccurrences(AddPrincipal(ps, c[i].0) + PrincipalsIn(c[i + 1..]), {})
            == L.FirstOccurrences(ps + PrincipalsIn(c[i..]), {})
  {
    var rest := PrincipalsIn(c[i + 1..]);
    assert c[i..][1..] == c[i + 1..];
    var k := c[i].0;
    if !EndsWith(k, "_metadados") {
      var t := Principal(k);
      assert PrincipalsIn(c[i..]) == [t] + rest;
      assert ps + ([t] + rest) == (ps + [t]) + rest;
      if t in ps {
        SkipSeen(ps, t, rest);
      } else {
        AppendFresh(ps, t);
      }
    } else {
      assert PrincipalsIn(c[i..]) == rest;
    }
  }

  /** The first loop of `criar_resumo_tabelas_suporte`: the set of main tables, kept as a list without repeats. */
  method CollectPrincipals(c: Consolidated) returns (principals: seq<string>)
    ensures principals == L.FirstOccurrences(PrincipalsIn(c), {})
  {
    principals := [];
    var i := 0;
    assert principals + PrincipalsIn(c[0..]) == PrincipalsIn(c) by { assert c[0..] == c; }
    while i < |c|
      invariant 0 <= i <= |c|
      invariant L.FirstOccurrences(principals + PrincipalsIn(c[i..]), {}) == L.FirstOccurrences(PrincipalsIn(c), {})
      invariant L.FirstOccurrences(principals, {}) == principals
    {
      CollectStep(principals, c, i);
      var k := c[i].0;
      if !EndsWith(k, "_metadados") && Principal(k) !in principals {
        principals := principals + [Principal(k)];
      }
      i := i + 1;
    }
    assert principals + PrincipalsIn(c[|c|..]) == principals;
  }

  /** The second loop: a summary line for each main table with rows, in the given order. */
  method SummaryLines(c: Consolidated, names: seq<string>) returns (resumo: seq<SummaryRow>)
    ensures resumo == SummaryRows(c, names)
  {
    resumo := [];
    var j := 0;
    while j < |names|
      invariant 0 <= j <= |names|
      invariant resumo == SummaryRows(c, names[..j])
    {
      assert names[..j + 1][..j] == names[..j];
      var t := names[j];
      if HasRows(c, t) {
        resumo := resumo + [SummaryOf(c, t)];
      }
      j := j + 1;
    }
    assert names[..|names|] == names;
  }

  /** `criar_resumo_tabelas_suporte`. */
  method CreateSummary(c: Consolidated) returns (resumo: seq<SummaryRow>)
    ensures resumo == Summary(c)
  {
    var principals := CollectPrincipals(c);
    resumo := SummaryLines(c, Sort(principals));
  }

  /** The first occurrences of `xs` with nothing seen: the prefix's, then the rest's unseen ones. */
  lemma {:induction false} FirstOccurrencesAppend(xs: seq<string>, ys: seq<string>, seen: set<string>)
    ensures L.FirstOccurrences(xs + ys, seen) ==
              L.FirstOccurrences(xs, seen) + L.FirstOccurrences(ys, seen + (set x | x in xs))
    decreases |xs|
  {
    if xs == [] {
      assert xs + ys == ys;
      assert seen + (set x | x in xs) == seen;
    } else {
      ElementsCons(xs);
      var next := if xs[0] in seen then seen else seen + {xs[0]};
      FirstOccurrencesAppend(xs[1..], ys, next);
      assert next + (set x | x in xs[1..]) == seen + (set x | x in xs);
      FirstOccurrencesHead(xs, ys, seen);
    }
  }

  /** Unfolding the first element of a concatenation. */
  lemma FirstOccurrencesHead(xs: seq<string>, ys: seq<string>, seen: set<string>)
    requires xs != []
    ensures var next := if xs[0] in seen then seen else seen + {xs[0]};
            var head := if xs[0] in seen then [] else [xs[0]];
            L.FirstOccurrences(xs + ys, seen) == head + L.FirstOccurrences(xs[1..] + ys, next)
            && L.FirstOccurrences(xs, seen) == head + L.FirstOccurrences(xs[1..], next)
  {
    assert (xs + ys)[1..] == xs[1..] + ys && (xs + ys)[0] == xs[0];
  }

  /** The elements of a non-empty sequence: its head and those of its tail. */
  lemma ElementsCons(xs: seq<string>)
    requires xs != []
    ensures (set x | x in xs) == {xs[0]} + (set x | x in xs[1..])
  {
    assert forall x :: x in xs <==> x == xs[0] || x in xs[1..];
  }

  /** A seen value adds nothing. */
  lemma SkipSeen(ps: seq<string>, t: string, rest: seq<string>)
    requires t in ps
    ensures L.FirstOccurrences((ps + [t]) + rest, {}) == L.FirstOccurrences(ps + rest, {})
  {
    var seen: set<string> := set x | x in ps;
    var seenT: set<string> := set x | x in ps + [t];
    assert seenT == seen;
    assert {} + seen == seen && {} + seenT == seen;
    FirstOccurrencesAppend(ps, [t], {});
    assert L.FirstOccurrences([t], seen) == [] by {
      assert [t][1..] == [];
    }
    assert L.FirstOccurrences(ps + [t], {}) == L.FirstOccurrences(ps, {});
    FirstOccurrencesAppend(ps + [t], rest, {});
    FirstOccurrencesAppend(ps, rest, {});
  }

  /** A fresh value is kept. */
  lemma AppendFresh(ps: seq<string>, t: string)
    requires t !in ps && L.FirstOccurrences(ps, {}) == ps
    ensures L.FirstOccurrences(ps + [t], {}) == ps + [t]
  {
    FirstOccurrencesAppend(ps, [t], {});
    assert L.FirstOccurrences([t], {} + (set x | x in ps)) == [t];
  }

  /** The final statistics of both scripts: the data structures and their rows. */
  method Statistics(c: Consolidated) returns (tables: nat, records: nat)
    ensures tables == CountWhere(c, IsData) && records == DataRecords(c)
  {
    tables, records := 0, 0;
    var i := 0;
    while i < |c|
      invariant 0 <= i <= |c|
      invariant tables == CountWhere(c[..i], IsData) && records == DataRecords(c[..i])
    {
      assert c[..i + 1][..i] == c[..i];
      if IsData(c[i]) {
        tables := tables + 1;
        records := records + |c[i].1|;
      }
      i := i + 1;
    }
    assert c[..|c|] == c;
  }

  // ---- The two runs ----

  datatype Ending =
    | NoCredentials
    | AuthFailed
    | NoTables
    | Declined
    | MissingName
    | RateLimitStop
    | RetryRaised
    | NothingDownloaded
    | SaveRaised
    | Saved(files: seq<SavedFile>, totalFiles: nat, totalRecords: nat, summary: seq<SummaryRow>,
            tablesDownloaded: nat, dataRecords: nat)

  /** What a run ends with and what `baixar_tabelas_suporte` returns. */
  datatype Outcome = Outcome(ending: Ending, returned: Option<Consolidated>)

  /** The answer to "continue?" accepts the download. */
  predicate Accepted(answer: string)
  {
    DV.Lower(answer) == "s"
  }

  /**
   * The run up to the consolidated structures: the credentials, the login,
   * the listing (None when it fails), the answer, every descriptor's name,
   * the first pass and, when tables expired, one more login and the retries.
   */
  function Download(credentials: bool, authOk: bool, tabelas: Option<seq<TableInfo>>, answer: string,
                    order: seq<(string, S.TableResult)>, reauthOk: bool, retry: string -> S.TableResult)
    : Result<Ending, Consolidated>
  {
    if !credentials then Stop(NoCredentials)
    else if !authOk then Stop(AuthFailed)
    else if tabelas.None? || tabelas.value == [] then Stop(NoTables)
    else if !Accepted(answer) then Stop(Declined)
    else if exists i :: 0 <= i < |tabelas.value| && tabelas.value[i].nome.None? then Stop(MissingName)
    else
      var p := FirstPass(StartPass(), order);
      if p.rateLimited then Stop(RateLimitStop)
      else if p.expired != [] && reauthOk then
        (match ReprocessAsWritten(p.consolidated, p.expired, tabelas.value, retry)
         case None => Stop(RetryRaised)
         case Some(c) => Go(c))
      else Go(p.consolidated)
  }

  /** Either the run stopped early, or it has consolidated structures to save. */
  datatype Result<E, T> = Stop(ending: E) | Go(value: T)

  /** `baixar_tabelas_suporte` of src/api/siscomex/tabx.py: any consolidated structure reaches the save, which raises. */
  function TabxRun(credentials: bool, authOk: bool, tabelas: Option<seq<TableInfo>>, answer: string,
                   order: seq<(string, S.TableResult)>, reauthOk: bool, retry: string -> S.TableResult): Outcome
  {
    match Download(credentials, authOk, tabelas, answer, order, reauthOk, retry)
    case Stop(e) => Outcome(e, None)
    case Go(c) => if c != [] then Outcome(SaveRaised, None) else Outcome(NothingDownloaded, Some(c))
  }

  /** `baixar_tabelas_suporte` of download_tabelas.py: the structures are written with their summary; nothing is returned. */
  function StandaloneRun(credentials: bool, authOk: bool, tabelas: Option<seq<TableInfo>>, answer: string,
                         order: seq<(string, S.TableResult)>, reauthOk: bool, retry: string -> S.TableResult): Outcome
  {
    match Download(credentials, authOk, tabelas, answer, order, reauthOk, retry)
    case Stop(e) => Outcome(e, None)
    case Go(c) =>
      if c != [] then Outcome(Saved(Files(c), |Files(c)|, RecordCount(c), Summary(c), CountWhere(c, IsData), DataRecords(c)), None)
      else Outcome(NothingDownloaded, None)
  }

  /**
   * The current module never hands back any table: it returns either
   * nothing or an empty dict. It raises from the retry loop when a retry is
   * not usable, and from the save whenever a table was consolidated.
   */
  lemma TabxNeverReturnsTables(credentials: bool, authOk: bool, tabelas: Option<seq<TableInfo>>, answer: string,
                               order: seq<(string, S.TableResult)>, reauthOk: bool, retry: string -> S.TableResult)
    ensures var r := TabxRun(credentials, authOk, tabelas, answer, order, reauthOk, retry);
            (r.returned.Some? ==> r.returned.value == [] && r.ending == NothingDownloaded)
            && (r.ending == SaveRaised <==> Download(credentials, authOk, tabelas, answer, order, reauthOk, retry).Go?
                                            && Download(credentials, authOk, tabelas, answer, order, reauthOk, retry).value != [])
            && (r.ending == RetryRaised <==> Download(credentials, authOk, tabelas, answer, order, reauthOk, retry) == Stop(RetryRaised))
  {
  }

  /** A rate limit in the results stops both runs before the retries and the save, whatever the retries would give. */
  lemma RateLimitStopsDownload(credentials: bool, authOk: bool, tabelas: seq<TableInfo>, answer: string,
                               order: seq<(string, S.TableResult)>, reauthOk: bool,
                               retry1: string -> S.TableResult, retry2: string -> S.TableResult)
    requires credentials && authOk && tabelas != [] && Accepted(answer)
    requires forall i :: 0 <= i < |tabelas| ==> tabelas[i].nome.Some?
    requires FirstLimit(order) < |order|
    ensures TabxRun(credentials, authOk, Some(tabelas), answer, order, reauthOk, retry1) == Outcome(RateLimitStop, None)
    ensures StandaloneRun(credentials, authOk, Some(tabelas), answer, order, reauthOk, retry2) == Outcome(RateLimitStop, None)
  {
    FirstPassStops(StartPass(), order);
    DownloadRateLimited(credentials, authOk, tabelas, answer, order, reauthOk, retry1);
    DownloadRateLimited(credentials, authOk, tabelas, answer, order, reauthOk, retry2);
    StoppedRuns(credentials, authOk, Some(tabelas), answer, order, reauthOk, retry1);
    StoppedRuns(credentials, authOk, Some(tabelas), answer, order, reauthOk, retry2);
  }

  /** Past the checks, a rate limit in the first pass stops the download. */
  lemma DownloadRateLimited(credentials: bool, authOk: bool, tabelas: seq<TableInfo>, answer: string,
                            order: seq<(string, S.TableResult)>, reauthOk: bool, retry: string -> S.TableResult)
    requires credentials && authOk && tabelas != [] && Accepted(answer)
    requires forall i :: 0 <= i < |tabelas| ==> tabelas[i].nome.Some?
    requires FirstPass(StartPass(), order).rateLimited
    ensures Download(credentials, authOk, Some(tabelas), answer, order, reauthOk, retry) == Stop(RateLimitStop)
  {
    assert !(exists i :: 0 <= i < |tabelas| && tabelas[i].nome.None?);
  }

  /** A download that stops ends both runs with that stop, and neither returns anything. */
  lemma StoppedRuns(credentials: bool, authOk: bool, tabelas: Option<seq<TableInfo>>, answer: string,
                    order: seq<(string, S.TableResult)>, reauthOk: bool, retry: string -> S.TableResult)
    requires Download(credentials, authOk, tabelas, answer, order, reauthOk, retry).Stop?
    ensures var e := Download(credentials, authOk, tabelas, answer, order, reauthOk, retry).ending;
            TabxRun(credentials, authOk, tabelas, answer, order, reauthOk, retry) == Outcome(e, None)
            && StandaloneRun(credentials, authOk, tabelas, answer, order, reauthOk, retry) == Outcome(e, None)
  {
  }

  /**
   * Without a rate limit and with the second login, the download goes on
   * exactly when every queued retry is usable, and then the structures hold
   * the first pass's rows followed by the retries'; otherwise the retry loop
   * raises.
   */
  lemma DownloadRows(credentials: bool, authOk: bool, tabelas: seq<TableInfo>, answer: string,
                     order: seq<(string, S.TableResult)>, retry: string -> S.TableResult)
    requires credentials && authOk && tabelas != [] && Accepted(answer)
    requires forall i :: 0 <= i < |tabelas| ==> tabelas[i].nome.Some?
    requires FirstLimit(order) == |order|
    ensures var r := Download(credentials, authOk, Some(tabelas), answer, order, true, retry);
            (r.Go? <==> forall i :: 0 <= i < |ExpiredIn(order)| ==> Usable(ExpiredIn(order)[i], tabelas, retry))
            && (r.Stop? ==> r.ending == RetryRaised)
            && (r.Go? ==> forall k :: RowsOf(r.value, k) == FetchedRows(order, k) + RetriedRows(ExpiredIn(order), tabelas, retry, k))
  {
    var p := FirstPass(StartPass(), order);
    CleanFirstPass(order);
    DownloadGoes(credentials, authOk, tabelas, answer, order, retry);
    if p.expired != [] {
      ReprocessFails(p.consolidated, p.expired, tabelas, retry);
      if forall i :: 0 <= i < |p.expired| ==> Usable(p.expired[i], tabelas, retry) {
        ReprocessAgrees(p.consolidated, p.expired, tabelas, retry);
        ReprocessRows(p.consolidated, p.expired, tabelas, retry);
      }
    }
  }

  /** A retry that answers a marker, or does not normalise, ends both runs with the retry loop's exception. */
  lemma RetryCrashEndsRuns(credentials: bool, authOk: bool, tabelas: seq<TableInfo>, answer: string,
                           order: seq<(string, S.TableResult)>, retry: string -> S.TableResult, j: nat)
    requires credentials && authOk && tabelas != [] && Accepted(answer)
    requires forall i :: 0 <= i < |tabelas| ==> tabelas[i].nome.Some?
    requires FirstLimit(order) == |order|
    requires j < |ExpiredIn(order)| && !Usable(ExpiredIn(order)[j], tabelas, retry)
    ensures TabxRun(credentials, authOk, Some(tabelas), answer, order, true, retry) == Outcome(RetryRaised, None)
    ensures StandaloneRun(credentials, authOk, Some(tabelas), answer, order, true, retry) == Outcome(RetryRaised, None)
  {
    DownloadRows(credentials, authOk, tabelas, answer, order, retry);
    StoppedRuns(credentials, authOk, Some(tabelas), answer, order, true, retry);
  }

  /** Without a rate limit the first pass queues every expired table and holds every fetched row. */
  lemma CleanFirstPass(order: seq<(string, S.TableResult)>)
    requires FirstLimit(order) == |order|
    ensures var p := FirstPass(StartPass(), order);
            !p.rateLimited && p.expired == ExpiredIn(order)
            && forall k :: RowsOf(p.consolidated, k) == FetchedRows(order, k)
  {
    FirstPassStops(StartPass(), order);
    FirstPassQueues(StartPass(), order);
    FirstPassRows(StartPass(), order);
  }

  /** Past the checks and without a rate limit, the download goes on to the retries, when there are any. */
  lemma DownloadGoes(credentials: bool, authOk: bool, tabelas: seq<TableInfo>, answer: string,
                     order: seq<(string, S.TableResult)>, retry: string -> S.TableResult)
    requires credentials && authOk && tabelas != [] && Accepted(answer)
    requires forall i :: 0 <= i < |tabelas| ==> tabelas[i].nome.Some?
    requires !FirstPass(StartPass(), order).rateLimited
    ensures var p := FirstPass(StartPass(), order);
            Download(credentials, authOk, Some(tabelas), answer, order, true, retry)
              == if p.expired == [] then Go(p.consolidated)
                 else if ReprocessAsWritten(p.consolidated, p.expired, tabelas, retry).None? then Stop(RetryRaised)
                 else Go(ReprocessAsWritten(p.consolidated, p.expired, tabelas, retry).value)
  {
    assert !(exists i :: 0 <= i < |tabelas| && tabelas[i].nome.None?);
  }

  /** The saved run writes one file per non-empty structure holding every consolidated row. */
  lemma StandaloneSaveMeaning(credentials: bool, authOk: bool, tabelas: Option<seq<TableInfo>>, answer: string,
                              order: seq<(string, S.TableResult)>, reauthOk: bool, retry: string -> S.TableResult)
    ensures var r := StandaloneRun(credentials, authOk, tabelas, answer, order, reauthOk, retry);
            r.returned.None?
            && (r.ending.Saved? ==>
                  var c := Download(credentials, authOk, tabelas, answer, order, reauthOk, retry).value;
                  r.ending.totalFiles == |r.ending.files| && FileRows(r.ending.files) == r.ending.totalRecords
                  && r.ending.totalRecords == RecordCount(c) && r.ending.summary == Summary(c)
                  && r.ending.dataRecords <= r.ending.totalRecords && r.ending.tablesDownloaded <= |c|)
  {
    var d := Download(credentials, authOk, tabelas, answer, order, reauthOk, retry);
    if d.Go? {
      FilesMeaning(d.value);
      StatisticsMeaning(d.value);
    }
  }

  /** The run as the scripts perform it, for either script. */
  method DownloadTables(script: S.Script, credentials: bool, authOk: bool, tabelas: Option<seq<TableInfo>>,
                        answer: string, order: seq<(string, S.TableResult)>, reauthOk: bool,
                        retry: string -> S.TableResult)
    returns (r: Outcome)
    ensures script == S.Tabx ==> r == TabxRun(credentials, authOk, tabelas, answer, order, reauthOk, retry)
    ensures script == S.Standalone ==> r == StandaloneRun(credentials, authOk, tabelas, answer, order, reauthOk, retry)
  {
    if !credentials {
      return Outcome(NoCredentials, None);
    }
    if !authOk {
      return Outcome(AuthFailed, None);
    }
    if tabelas.None? || tabelas.value == [] {
      return Outcome(NoTables, None);
    }
    if !Accepted(answer) {
      return Outcome(Declined, None);
    }
    if exists i :: 0 <= i < |tabelas.value| && tabelas.value[i].nome.None? {
      return Outcome(MissingName, None);
    }
    var p := RunFirstPass(order);
    if p.rateLimited {
      return Outcome(RateLimitStop, None);
    }
    var c := p.consolidated;
    if p.expired != [] && reauthOk {
      var retried := RunReprocess(c, p.expired, tabelas.value, retry);
      if retried.None? {
        return Outcome(RetryRaised, None);
      }
      c := retried.value;
    }
    if c == [] {
      return Outcome(NothingDownloaded, if script == S.Tabx then Some(c) else None);
    }
    if script == S.Tabx {
      return Outcome(SaveRaised, None);
    }
    var files, totalFiles, totalRecords := SaveStructures(c);
    var resumo := CreateSummary(c);
    var tables, records := Statistics(c);
    return Outcome(Saved(files, totalFiles, totalRecords, resumo, tables, records), None);
  }
}
