// `processar_chave_individual` and the consolidation of `processar_chaves_nf`:
// the three caches shared by the key lookups (invoice key -> DUE number from
// the previous run's file, results by key, results by DUE number) and the
// pass over the lookup results in completion order that gathers the basic
// rows and adds each DUE's normalised rows once.
module DueCache {
  import opened Wrappers
  import opened DueLookup
  import N = DueNormalizer

  /** The three caches as values. */
  datatype Caches = Caches(nfDue: map<string, string>, byKey: map<string, Basic>, byDue: map<string, Basic>)

  /** Cached rows are keyed by their own invoice key and DUE number; a known DUE number is never empty. */
  predicate Coherent(c: Caches)
  {
    (forall k :: k in c.nfDue ==> c.nfDue[k] != "")
    && (forall k :: k in c.byKey ==> c.byKey[k].chaveNf == k)
    && (forall n :: n in c.byDue ==> c.byDue[n].numeroDue == n)
  }

  /** Every entry of `a` is in `b` with the same value. */
  predicate Extends<K, V(==)>(a: map<K, V>, b: map<K, V>)
  {
    forall k :: k in a ==> k in b && b[k] == a[k]
  }

  /** The DUE number the link query names: the first link's `rel`, when the reply is a 200 JSON list of objects. */
  function DiscoveredNumber(first: Attempt): string
  {
    if first.None? || first.value.status != 200 || first.value.body.None? then ""
    else match FirstLink(first.value.body.value)
      case None => ""
      case Some(link) => TextField(link, "rel")
  }

  /**
   * One key: the DUE number from the file cache or from the link query
   * (`first`), then the result already known for the key, the result known
   * for the DUE with the key replaced, or the direct lookup (`direct`,
   * `atos`), whose finds are cached both ways.
   */
  function KeyStep(c: Caches, chave: string, first: Attempt, direct: Attempt, atos: Attempt,
                   normalize: Normalizer): (Lookup, Caches)
  {
    var known := if chave in c.nfDue then c.nfDue[chave] else "";
    if known == "" && first.Some? && first.value.status == 401 then (Expired, c)
    else
      var numero := if known != "" then known else DiscoveredNumber(first);
      if numero == "" then (NoDue, c)
      else
        var c1 := c.(nfDue := c.nfDue[chave := numero]);
        if chave in c1.byKey then (Found(c1.byKey[chave]), c1)
        else if numero in c1.byDue then
          var reused := c1.byDue[numero].(chaveNf := chave);
          (Found(reused), c1.(byKey := c1.byKey[chave := reused]))
        else
          var l := ByNumber(chave, numero, direct, atos, normalize);
          if l.Found? then (l, c1.(byKey := c1.byKey[chave := l.basic], byDue := c1.byDue[numero := l.basic]))
          else (l, c1)
  }

  /** A DUE number already known for the key spares the link query. */
  lemma KnownNumberSkipsDiscovery(c: Caches, chave: string, first: Attempt, other: Attempt, direct: Attempt,
                                  atos: Attempt, normalize: Normalizer)
    requires chave in c.nfDue && c.nfDue[chave] != ""
    ensures KeyStep(c, chave, first, direct, atos, normalize) == KeyStep(c, chave, other, direct, atos, normalize)
  {
  }

  /** A DUE already fetched for another key is reused with the invoice key replaced, with no request. */
  lemma KnownDueReused(c: Caches, chave: string, first: Attempt, direct: Attempt, atos: Attempt,
                       normalize: Normalizer)
    requires chave in c.nfDue && c.nfDue[chave] != "" && chave !in c.byKey && c.nfDue[chave] in c.byDue
    ensures var (l, c') := KeyStep(c, chave, first, direct, atos, normalize);
            l == Found(c.byDue[c.nfDue[chave]].(chaveNf := chave)) && c'.byKey[chave] == l.basic
  {
  }

  /** A key's step keeps the caches coherent and never overwrites an entry; a found row is filed under the key. */
  lemma KeyStepKeepsCaches(c: Caches, chave: string, first: Attempt, direct: Attempt, atos: Attempt,
                           normalize: Normalizer)
    requires Coherent(c)
    ensures var (l, c') := KeyStep(c, chave, first, direct, atos, normalize);
            Coherent(c') && Extends(c.nfDue, c'.nfDue) && Extends(c.byKey, c'.byKey) && Extends(c.byDue, c'.byDue)
            && (l.Found? ==> l.basic.chaveNf == chave && chave in c'.byKey && c'.byKey[chave] == l.basic)
  {
    var r := KeyStep(c, chave, first, direct, atos, normalize);
    var known := if chave in c.nfDue then c.nfDue[chave] else "";
    if known == "" && first.Some? && first.value.status == 401 {
      assert r == (Expired, c);
    } else {
      var numero := if known != "" then known else DiscoveredNumber(first);
      if numero == "" {
        assert r == (NoDue, c);
      } else {
        var c1 := c.(nfDue := c.nfDue[chave := numero]);
        NumberCached(c, chave, numero);
        if chave in c1.byKey {
          assert r == (Found(c1.byKey[chave]), c1);
        } else if numero in c1.byDue {
          var reused := c1.byDue[numero].(chaveNf := chave);
          assert r == (Found(reused), c1.(byKey := c1.byKey[chave := reused]));
          BasicFiled(c1, chave, numero, reused, false);
        } else {
          var l := ByNumber(chave, numero, direct, atos, normalize);
          FoundByNumber(chave, numero, direct, atos, normalize);
          if l.Found? {
            assert r == (l, c1.(byKey := c1.byKey[chave := l.basic], byDue := c1.byDue[numero := l.basic]));
            BasicFiled(c1, chave, numero, l.basic, true);
          } else {
            assert r == (l, c1);
          }
        }
      }
    }
  }

  /** Remembering a non-empty DUE number for a key that has none (or the same one) keeps the caches coherent. */
  lemma NumberCached(c: Caches, chave: string, numero: string)
    requires Coherent(c) && numero != ""
    requires chave in c.nfDue ==> c.nfDue[chave] == numero
    ensures Coherent(c.(nfDue := c.nfDue[chave := numero])) && Extends(c.nfDue, c.nfDue[chave := numero])
  {
  }

  /** Filing a row under its own key, and under its own DUE number when `both`, keeps the caches coherent and overwrites nothing. */
  lemma BasicFiled(c: Caches, chave: string, numero: string, b: Basic, both: bool)
    requires Coherent(c) && chave !in c.byKey && b.chaveNf == chave
    requires both ==> numero !in c.byDue && b.numeroDue == numero
    ensures var c' := if both then c.(byKey := c.byKey[chave := b], byDue := c.byDue[numero := b])
                      else c.(byKey := c.byKey[chave := b]);
            Coherent(c') && Extends(c.byKey, c'.byKey) && Extends(c.byDue, c'.byDue)
  {
  }


  /** The shared caches, updated in place by each key's lookup. */
  class KeyCaches {
    var nfDue: map<string, string>
    var byKey: map<string, Basic>
    var byDue: map<string, Basic>

    function State(): Caches
      reads this
    {
      Caches(nfDue, byKey, byDue)
    }

    predicate Valid()
      reads this
    {
      Coherent(State())
    }

    /** `carregar_cache_due_siscomex` gives the file cache; the two others start empty. */
    constructor (fileCache: map<string, string>)
      requires forall k :: k in fileCache ==> fileCache[k] != ""
      ensures Valid() && State() == Caches(fileCache, map[], map[])
    {
      nfDue := fileCache;
      byKey := map[];
      byDue := map[];
    }

    /** `processar_chave_individual` for one key. */
    method ProcessKey(chave: string, first: Attempt, direct: Attempt, atos: Attempt, normalize: Normalizer)
      returns (r: Lookup)
      requires Valid()
      modifies this
      ensures Valid()
      ensures (r, State()) == KeyStep(old(State()), chave, first, direct, atos, normalize)
    {
      KeyStepKeepsCaches(State(), chave, first, direct, atos, normalize);
      var numero := "";
      if chave in nfDue {
        numero := nfDue[chave];
      }
      if numero == "" {
        if first.None? {
          return NoDue;
        }
        if first.value.status == 401 {
          return Expired;
        }
        if first.value.status != 200 || first.value.body.None? {
          return NoDue;
        }
        var link := FirstLink(first.value.body.value);
        if link.None? {
          return NoDue;
        }
        numero := TextField(link.value, "rel");
        if numero == "" {
          return NoDue;
        }
      }
      nfDue := nfDue[chave := numero];
      if chave in byKey {
        return Found(byKey[chave]);
      }
      if numero in byDue {
        var reused := byDue[numero].(chaveNf := chave);
        byKey := byKey[chave := reused];
        return Found(reused);
      }
      r := ByNumber(chave, numero, direct, atos, normalize);
      if r.Found? {
        byKey := byKey[chave := r.basic];
        byDue := byDue[numero := r.basic];
      }
    }
  }

  // ---- Consolidation of the results, in completion order ----

  /** The 21 lists the consolidated dict starts with: every table but the two the normaliser never creates. */
  function EmptyConsolidated(): (m: N.Tables)
    ensures forall t :: t in m <==> N.Initialised(t)
    ensures forall t :: t in m ==> m[t] == []
  {
    N.AllTablesListed();
    map t | t in N.AllTables && N.Initialised(t) :: []
  }

  /** Each list of `acc` extended by the list of the same table in `more`; tables `acc` lacks are not added. */
  function Extend(acc: N.Tables, more: N.Tables): (r: N.Tables)
    ensures r.Keys == acc.Keys
    ensures forall t :: t in acc ==> r[t] == acc[t] + (if t in more then more[t] else [])
  {
    map t | t in acc :: acc[t] + (if t in more then more[t] else [])
  }

  /** What the pass has gathered: basic rows, expired keys, consolidated lists, DUEs already normalised, successes. */
  datatype Gathered = Gathered(results: seq<Basic>, expired: seq<string>, tables: N.Tables,
                               normalized: seq<string>, successes: nat)

  /** The basic row without its normalised tables. */
  function Summary(b: Basic): Basic
  {
    b.(tables := None)
  }

  /** A found result whose DUE's rows are consolidated unless that DUE already was. */
  predicate Tabled(l: Lookup)
  {
    l.Found? && l.basic.tables.Some? && l.basic.numeroDue != ""
  }

  /** One result of the parallel pass. */
  function Gather(g: Gathered, chave: string, l: Lookup): Gathered
  {
    match l
    case Expired => g.(expired := g.expired + [chave])
    case NoDue => g
    case Found(b) =>
      var g1 := g.(results := g.results + [Summary(b)], successes := g.successes + 1);
      if Tabled(l) && b.numeroDue !in g.normalized
      then g1.(tables := Extend(g.tables, b.tables.value), normalized := g.normalized + [b.numeroDue])
      else g1
  }

  function GatherAll(g: Gathered, results: seq<(string, Lookup)>): Gathered
    decreases |results|
  {
    if results == [] then g else GatherAll(Gather(g, results[0].0, results[0].1), results[1..])
  }

  /** The DUE numbers of the results whose rows would be consolidated, in order. */
  function TabledDues(results: seq<(string, Lookup)>): seq<string>
  {
    if results == [] then []
    else (if Tabled(results[0].1) then [results[0].1.basic.numeroDue] else []) + TabledDues(results[1..])
  }

  /** The first tabled result of each DUE not yet `seen`: its number and its normalised tables, in order. */
  function FirstTabled(results: seq<(string, Lookup)>, seen: set<string>): seq<(string, N.Tables)>
  {
    if results == [] then []
    else
      var l := results[0].1;
      if Tabled(l) && l.basic.numeroDue !in seen
      then [(l.basic.numeroDue, l.basic.tables.value)] + FirstTabled(results[1..], seen + {l.basic.numeroDue})
      else FirstTabled(results[1..], seen)
  }

  function Dues(xs: seq<(string, N.Tables)>): seq<string>
  {
    if xs == [] then [] else [xs[0].0] + Dues(xs[1..])
  }

  /** `acc` extended by each contribution in turn. */
  function ExtendAll(acc: N.Tables, xs: seq<(string, N.Tables)>): N.Tables
  {
    if xs == [] then acc else ExtendAll(Extend(acc, xs[0].1), xs[1..])
  }

  /** The first tabled results are those of distinct, unseen DUEs, and cover every tabled DUE not seen. */
  lemma {:induction false} FirstTabledDistinct(results: seq<(string, Lookup)>, seen: set<string>)
    ensures Distinct(Dues(FirstTabled(results, seen)))
    ensures forall n :: n in Dues(FirstTabled(results, seen)) <==> n in TabledDues(results) && n !in seen
  {
    if results != [] {
      var l := results[0].1;
      if Tabled(l) && l.basic.numeroDue !in seen {
        var n := l.basic.numeroDue;
        FirstTabledDistinct(results[1..], seen + {n});
        assert Dues(FirstTabled(results, seen)) == [n] + Dues(FirstTabled(results[1..], seen + {n}));
      } else {
        FirstTabledDistinct(results[1..], seen);
      }
    }
  }

  /** The pass adds exactly the first tabled result of each DUE it had not normalised, in order. */
  lemma {:induction false} GatherAllConsolidates(g: Gathered, results: seq<(string, Lookup)>)
    ensures var firsts := FirstTabled(results, set n | n in g.normalized);
            GatherAll(g, results).normalized == g.normalized + Dues(firsts)
            && GatherAll(g, results).tables == ExtendAll(g.tables, firsts)
    decreases |results|
  {
    if results != [] {
      var (chave, l) := results[0];
      var g1 := Gather(g, chave, l);
      GatherAllConsolidates(g1, results[1..]);
      var seen := set n | n in g.normalized;
      if Tabled(l) && l.basic.numeroDue !in g.normalized {
        assert (set n | n in g1.normalized) == seen + {l.basic.numeroDue};
      } else {
        assert (set n | n in g1.normalized) == seen;
      }
    }
  }

  /** The pass keeps one basic row per found result, one expired key per expiry, and counts successes. */
  lemma {:induction false} GatherAllCounts(g: Gathered, results: seq<(string, Lookup)>)
    requires g.successes == |g.results|
    ensures GatherAll(g, results).successes == |GatherAll(g, results).results|
    ensures |GatherAll(g, results).results| + |GatherAll(g, results).expired| <= |g.results| + |g.expired| + |results|
    ensures GatherAll(g, results).tables.Keys == g.tables.Keys
    decreases |results|
  {
    if results != [] {
      GatherAllCounts(Gather(g, results[0].0, results[0].1), results[1..]);
    }
  }

  function Start(): Gathered
  {
    Gathered([], [], EmptyConsolidated(), [], 0)
  }

  /**
   * Starting empty, the consolidated lists are the empty lists extended by
   * one contribution per DUE: the first tabled result of that DUE.
   */
  lemma ConsolidatedOnce(results: seq<(string, Lookup)>)
    ensures var g := GatherAll(Start(), results);
            var firsts := FirstTabled(results, {});
            g.normalized == Dues(firsts) && g.tables == ExtendAll(EmptyConsolidated(), firsts)
            && Distinct(g.normalized) && (forall n :: n in g.normalized <==> n in TabledDues(results))
  {
    GatherAllConsolidates(Start(), results);
    assert (set n: string | n in Start().normalized) == {};
    FirstTabledDistinct(results, {});
  }

  // ---- The second pass over the keys whose token expired ----

  /** As written: each found result's rows are added again, without the check for DUEs already normalised. */
  function RetryAsWritten(g: Gathered, keys: seq<string>, retry: string -> Lookup): Gathered
    decreases |keys|
  {
    if keys == [] then g
    else
      var l := retry(keys[0]);
      var g1 := if l.Found? then
                  g.(results := g.results + [Summary(l.basic)], successes := g.successes + 1,
                     tables := if l.basic.tables.Some? then Extend(g.tables, l.basic.tables.value) else g.tables)
                else g;
      RetryAsWritten(g1, keys[1..], retry)
  }

  /** The tables each found second-pass result carries, in key order: DUEs already consolidated are not skipped. */
  function RetriedTables(keys: seq<string>, retry: string -> Lookup): seq<(string, N.Tables)>
  {
    if keys == [] then []
    else
      var l := retry(keys[0]);
      (if l.Found? && l.basic.tables.Some? then [(l.basic.numeroDue, l.basic.tables.value)] else [])
      + RetriedTables(keys[1..], retry)
  }

  /** `acc` extended by a concatenation is `acc` extended by each part in turn. */
  lemma {:induction false} ExtendAllAppend(acc: N.Tables, xs: seq<(string, N.Tables)>, ys: seq<(string, N.Tables)>)
    ensures ExtendAll(acc, xs + ys) == ExtendAll(ExtendAll(acc, xs), ys)
    decreases |xs|
  {
    if xs == [] {
      assert xs + ys == ys;
    } else {
      assert (xs + ys)[0] == xs[0] && (xs + ys)[1..] == xs[1..] + ys;
      ExtendAllAppend(Extend(acc, xs[0].1), xs[1..], ys);
    }
  }

  /**
   * As written, the second pass extends the lists by every found result's
   * tables, marks no DUE as normalised, and keeps one basic row and one
   * success per found result.
   */
  lemma {:induction false} RetryAsWrittenMeaning(g: Gathered, keys: seq<string>, retry: string -> Lookup)
    ensures RetryAsWritten(g, keys, retry).tables == ExtendAll(g.tables, RetriedTables(keys, retry))
    ensures RetryAsWritten(g, keys, retry).normalized == g.normalized
    ensures RetryAsWritten(g, keys, retry).expired == g.expired
    ensures RetryAsWritten(g, keys, retry).successes - g.successes == |RetryAsWritten(g, keys, retry).results| - |g.results|
    decreases |keys|
  {
    if keys != [] {
      var l := retry(keys[0]);
      var g1 := if l.Found? then
                  g.(results := g.results + [Summary(l.basic)], successes := g.successes + 1,
                     tables := if l.basic.tables.Some? then Extend(g.tables, l.basic.tables.value) else g.tables)
                else g;
      RetryAsWrittenMeaning(g1, keys[1..], retry);
      var head := if l.Found? && l.basic.tables.Some? then [(l.basic.numeroDue, l.basic.tables.value)] else [];
      ExtendAllAppend(g.tables, head, RetriedTables(keys[1..], retry));
      if head == [] {
        assert ExtendAll(g.tables, head) == g.tables;
      } else {
        assert head[1..] == [];
        assert ExtendAll(g.tables, head) == Extend(g.tables, l.basic.tables.value);
      }
    }
  }

  /** Corrected: the second pass consolidates like the first. */
  function Retry(g: Gathered, keys: seq<string>, retry: string -> Lookup): Gathered
    decreases |keys|
  {
    if keys == [] then g
    else
      var l := retry(keys[0]);
      Retry(if l.Found? then Gather(g, keys[0], l) else g, keys[1..], retry)
  }

  /** A DUE whose key first expired and whose rows another key already consolidated gets its rows twice. */
  lemma RetryDuplicatesRows(row: N.Row)
    ensures var tables := map[N.DuePrincipal := [row]];
            var b := Basic("k1", "24BR0001", Null, Null, Null, Null, map[], None, Some(tables));
            var retry := (k: string) => Found(b.(chaveNf := k));
            var g := GatherAll(Start(), [("k1", Found(b)), ("k2", Expired)]);
            var twice := RetryAsWritten(g, g.expired, retry).tables;
            var once := Retry(g, g.expired, retry).tables;
            g.expired == ["k2"] && N.DuePrincipal in g.tables && g.tables[N.DuePrincipal] == [row]
            && N.DuePrincipal in twice && twice[N.DuePrincipal] == [row, row]
            && N.DuePrincipal in once && once[N.DuePrincipal] == [row]
  {
    var tables := map[N.DuePrincipal := [row]];
    var b := Basic("k1", "24BR0001", Null, Null, Null, Null, map[], None, Some(tables));
    var retry := (k: string) => Found(b.(chaveNf := k));
    var g1 := Gather(Start(), "k1", Found(b));
    assert g1.tables[N.DuePrincipal] == [row];
    var g := Gather(g1, "k2", Expired);
    assert GatherAll(Start(), [("k1", Found(b)), ("k2", Expired)]) == g by {
      assert [("k1", Found(b)), ("k2", Expired)][1..] == [("k2", Expired)];
      assert [("k2", Expired)][1..] == [];
    }
    assert g.expired == ["k2"];
    assert RetryAsWritten(g, ["k2"], retry).tables == Extend(g.tables, tables) by {
      assert ["k2"][1..] == [];
    }
    assert Retry(g, ["k2"], retry) == Gather(g, "k2", retry("k2")) by {
      assert ["k2"][1..] == [];
    }
  }

  lemma GatherKeepsDistinct(g: Gathered, chave: string, l: Lookup)
    requires Distinct(g.normalized)
    ensures Distinct(Gather(g, chave, l).normalized)
  {
  }

  /** Corrected: the second pass keeps every DUE normalised at most once. */
  lemma {:induction false} RetryKeepsOnce(g: Gathered, keys: seq<string>, retry: string -> Lookup)
    requires Distinct(g.normalized)
    ensures Distinct(Retry(g, keys, retry).normalized)
    decreases |keys|
  {
    if keys != [] {
      var l := retry(keys[0]);
      var g1 := if l.Found? then Gather(g, keys[0], l) else g;
      GatherKeepsDistinct(g, keys[0], l);
      RetryKeepsOnce(g1, keys[1..], retry);
    }
  }

  /** The replies the link, details, suspension-acts and third queries give one key. */
  datatype NfReplies = NfReplies(link: Attempt, details: Attempt, atos: Attempt, third: seq<Attempt>)

  /** The second pass's lookup, `consultar_due_por_nf`, with the corrected third-query step. */
  function RetryByNf(replies: string -> NfReplies, normalize: Normalizer): string -> Lookup
  {
    (k: string) => ByNfCorrected(k, replies(k).link, replies(k).details, replies(k).atos, replies(k).third, normalize)
  }

  /** A DUE the second pass finds by invoice key is filed under that key, with a payload one of its queries returned. */
  lemma RetryByNfMeaning(replies: string -> NfReplies, normalize: Normalizer, k: string)
    requires RetryByNf(replies, normalize)(k).Found?
    ensures RetryByNf(replies, normalize)(k).basic.chaveNf == k
    ensures var r := replies(k);
            var data := RetryByNf(replies, normalize)(k).basic.data;
            r.details.Some? && (ObjectBody(r.details.value) == Some(data) || FullLookup(r.third) == FullData(Obj(data)))
  {
    var r := replies(k);
    CorrectedPayloadIsAReply(k, r.link, r.details, r.atos, r.third, normalize);
  }

  /**
   * `processar_chaves_nf` after the lookups, as written: nothing when the
   * first authentication fails; the parallel pass; the second pass after
   * one re-authentication.
   */
  function Consolidation(authOk: bool, results: seq<(string, Lookup)>, reauthOk: bool, retry: string -> Lookup): Gathered
  {
    if !authOk then Gathered([], [], map[], [], 0)
    else
      var g := GatherAll(Start(), results);
      if g.expired != [] && reauthOk then RetryAsWritten(g, g.expired, retry) else g
  }

  /**
   * As written, the lists hold the first tabled result of each DUE of the
   * parallel pass, then the tables of every result the second pass finds,
   * whether or not its DUE was consolidated already.
   */
  lemma ConsolidationRows(results: seq<(string, Lookup)>, reauthOk: bool, retry: string -> Lookup)
    ensures var g := GatherAll(Start(), results);
            var again := if g.expired != [] && reauthOk then RetriedTables(g.expired, retry) else [];
            Consolidation(true, results, reauthOk, retry).tables
              == ExtendAll(EmptyConsolidated(), FirstTabled(results, {}) + again)
            && Consolidation(true, results, reauthOk, retry).normalized == Dues(FirstTabled(results, {}))
  {
    var g := GatherAll(Start(), results);
    ConsolidatedOnce(results);
    var again := if g.expired != [] && reauthOk then RetriedTables(g.expired, retry) else [];
    ExtendAllAppend(EmptyConsolidated(), FirstTabled(results, {}), again);
    if g.expired != [] && reauthOk {
      RetryAsWrittenMeaning(g, g.expired, retry);
    } else {
      assert again == [];
    }
  }

  /** Corrected: the second pass consolidates like the first. */
  function CorrectedConsolidation(authOk: bool, results: seq<(string, Lookup)>, reauthOk: bool, retry: string -> Lookup): Gathered
  {
    if !authOk then Gathered([], [], map[], [], 0)
    else
      var g := GatherAll(Start(), results);
      if g.expired != [] && reauthOk then Retry(g, g.expired, retry) else g
  }

  /** Corrected: every DUE's rows are consolidated at most once over both passes. */
  lemma ConsolidationOnce(authOk: bool, results: seq<(string, Lookup)>, reauthOk: bool, retry: string -> Lookup)
    ensures Distinct(CorrectedConsolidation(authOk, results, reauthOk, retry).normalized)
  {
    if authOk {
      ConsolidatedOnce(results);
      var g := GatherAll(Start(), results);
      if g.expired != [] && reauthOk {
        RetryKeepsOnce(g, g.expired, retry);
      }
    }
  }

  /** The two passes over the results, in completion order. */
  method Consolidate(authOk: bool, results: seq<(string, Lookup)>, reauthOk: bool, retry: string -> Lookup)
    returns (g: Gathered)
    ensures g == Consolidation(authOk, results, reauthOk, retry)
  {
    if !authOk {
      return Gathered([], [], map[], [], 0);
    }
    var resultados: seq<Basic> := [];
    var expirados: seq<string> := [];
    var tabelas := EmptyConsolidated();
    var normalizadas: seq<string> := [];
    var sucessos := 0;
    var i := 0;
    while i < |results|
      invariant 0 <= i <= |results|
      invariant GatherAll(Gathered(resultados, expirados, tabelas, normalizadas, sucessos), results[i..])
                == GatherAll(Start(), results)
    {
      assert results[i..][1..] == results[i + 1..];
      var (chave, l) := results[i];
      if l.Expired? {
        expirados := expirados + [chave];
      } else if l.Found? {
        resultados := resultados + [Summary(l.basic)];
        if l.basic.tables.Some? && l.basic.numeroDue != "" && l.basic.numeroDue !in normalizadas {
          tabelas := Extend(tabelas, l.basic.tables.value);
          normalizadas := normalizadas + [l.basic.numeroDue];
        }
        sucessos := sucessos + 1;
      }
      i := i + 1;
    }
    g := Gathered(resultados, expirados, tabelas, normalizadas, sucessos);
    ghost var first := g;
    if expirados != [] && reauthOk {
      var j := 0;
      while j < |expirados|
        invariant 0 <= j <= |expirados|
        invariant RetryAsWritten(g, expirados[j..], retry) == RetryAsWritten(first, expirados, retry)
      {
        assert expirados[j..][1..] == expirados[j + 1..];
        var l := retry(expirados[j]);
        if l.Found? {
          var t := if l.basic.tables.Some? then Extend(g.tables, l.basic.tables.value) else g.tables;
          g := g.(results := g.results + [Summary(l.basic)], successes := g.successes + 1, tables := t);
        }
        j := j + 1;
      }
    }
  }
}
