// Finding the DUE of an invoice key: the key list read from the SAP export,
// the three-step lookup by invoice key, the direct lookup by DUE number, and
// the three alternative detail URLs. Every HTTP reply is an input.
module DueLookup {
  import opened Wrappers
  import DueNormalizer

  // ---- The invoice keys of the SAP export ----

  /** The SAP export as read: absent, without the key column, unreadable, or that column's cells (None = empty cell). */
  datatype KeyFile = MissingFile | MissingColumn | Unreadable | KeyColumn(cells: seq<Option<string>>)

  /** An invoice key has 44 digits; the filter keeps any cell longer than 40 characters. */
  predicate KeyCell(c: Option<string>)
  {
    c.Some? && |c.value| > 40
  }

  predicate Distinct(xs: seq<string>)
  {
    forall i, j :: 0 <= i < j < |xs| ==> xs[i] != xs[j]
  }

  /** The elements of `xs` not in `seen`, each kept at its first occurrence. */
  function FirstOccurrences(xs: seq<string>, seen: set<string>): (r: seq<string>)
    ensures |r| <= |xs|
    ensures forall x :: x in r <==> x in xs && x !in seen
    ensures Distinct(r)
  {
    if xs == [] then []
    else if xs[0] in seen then FirstOccurrences(xs[1..], seen)
    else [xs[0]] + FirstOccurrences(xs[1..], seen + {xs[0]})
  }

  /** The non-empty cells longer than 40 characters, in file order. */
  function LongCells(cells: seq<Option<string>>): (r: seq<string>)
    ensures |r| <= |cells|
    ensures forall k :: k in r <==> Some(k) in cells && |k| > 40
  {
    if cells == [] then []
    else if KeyCell(cells[0]) then [cells[0].value] + LongCells(cells[1..])
    else LongCells(cells[1..])
  }

  /** `ler_chaves_nf`: the distinct long keys, in order of first appearance; nothing on any read problem. */
  function NfKeys(f: KeyFile): (r: seq<string>)
  {
    if f.KeyColumn? then FirstOccurrences(LongCells(f.cells), {}) else []
  }

  lemma NfKeysMeaning(f: KeyFile)
    ensures !f.KeyColumn? ==> NfKeys(f) == []
    ensures f.KeyColumn? ==> forall k :: k in NfKeys(f) <==> Some(k) in f.cells && |k| > 40
    ensures Distinct(NfKeys(f))
    ensures f.KeyColumn? ==> |NfKeys(f)| <= |f.cells|
  {
  }

  // ---- Replies ----

  /** An HTTP reply: its status and its body decoded as JSON (None when it is not JSON). */
  datatype Reply = Reply(status: int, body: Option<Value>)

  /** A request as the client sees it: None when the request itself raised. */
  type Attempt = Option<Reply>

  /** `raise_for_status` raises for the client and server error ranges. */
  predicate ErrorStatus(status: int)
  {
    400 <= status < 600
  }

  /** A string field of a JSON object, "" when absent or not a string. */
  function TextField(m: map<string, Value>, k: string): string
  {
    if k in m && m[k].Str? then m[k].s else ""
  }

  /** Python's `len` of a field read with an empty default: None when the value has no length. */
  function FieldLen(m: map<string, Value>, k: string): Option<nat>
  {
    if k !in m then Some(0)
    else match m[k]
      case List(xs) => Some(|xs|)
      case Str(s) => Some(|s|)
      case Obj(f) => Some(|f|)
      case _ => None
  }

  // ---- `consultar_due_completa`: three alternative detail URLs ----

  datatype FullResult = FullData(data: Value) | FullExpired | FullNone

  /** A reply that ends the search: an expired token, or a non-empty JSON body with status 200. */
  predicate Decisive(a: Attempt)
  {
    a.Some? && (a.value.status == 401 || (a.value.status == 200 && a.value.body.Some? && TruthyValue(a.value.body.value)))
  }

  /** The outcome of trying the URLs in order, one reply per URL tried. */
  function FullLookup(attempts: seq<Attempt>): FullResult
  {
    if attempts == [] then FullNone
    else if Decisive(attempts[0]) then
      (if attempts[0].value.status == 401 then FullExpired else FullData(attempts[0].value.body.value))
    else FullLookup(attempts[1..])
  }

  /** The search ends at the first decisive reply; without one every URL is tried and nothing is found. */
  lemma {:induction false} FullLookupMeaning(attempts: seq<Attempt>)
    ensures FullLookup(attempts).FullNone? <==> forall i :: 0 <= i < |attempts| ==> !Decisive(attempts[i])
    ensures !FullLookup(attempts).FullNone? ==>
              exists i :: 0 <= i < |attempts| && Decisive(attempts[i])
                          && (forall j :: 0 <= j < i ==> !Decisive(attempts[j]))
                          && (FullLookup(attempts).FullExpired? <==> attempts[i].value.status == 401)
                          && (FullLookup(attempts).FullData? ==> FullLookup(attempts).data == attempts[i].value.body.value)
  {
    if attempts != [] && !Decisive(attempts[0]) {
      FullLookupMeaning(attempts[1..]);
      if !FullLookup(attempts).FullNone? {
        var i :| 0 <= i < |attempts[1..]| && Decisive(attempts[1..][i])
                 && (forall j :: 0 <= j < i ==> !Decisive(attempts[1..][j]))
                 && (FullLookup(attempts[1..]).FullExpired? <==> attempts[1..][i].value.status == 401)
                 && (FullLookup(attempts[1..]).FullData? ==> FullLookup(attempts[1..]).data == attempts[1..][i].value.body.value);
        assert forall j :: 0 <= j < i + 1 ==> !Decisive(attempts[j]) by {
          forall j | 0 <= j < i + 1 ensures !Decisive(attempts[j]) {
            if j > 0 { assert attempts[j] == attempts[1..][j - 1]; }
          }
        }
        assert attempts[i + 1] == attempts[1..][i];
      }
      if FullLookup(attempts).FullNone? {
        forall i | 0 <= i < |attempts| ensures !Decisive(attempts[i]) {
          if i > 0 { assert attempts[i] == attempts[1..][i - 1]; }
        }
      }
    }
  }

  /** Tries the URLs in order; `sent` is the number of requests made. */
  method ConsultFull(attempts: seq<Attempt>) returns (r: FullResult, sent: nat)
    ensures r == FullLookup(attempts)
    ensures sent <= |attempts|
    ensures sent < |attempts| ==> sent > 0 && Decisive(attempts[sent - 1])
    ensures forall j :: 0 <= j < sent && j < |attempts| && j != sent - 1 ==> !Decisive(attempts[j])
  {
    var i := 0;
    while i < |attempts|
      invariant 0 <= i <= |attempts|
      invariant FullLookup(attempts) == FullLookup(attempts[i..])
      invariant forall j :: 0 <= j < i ==> !Decisive(attempts[j])
    {
      assert attempts[i..][1..] == attempts[i + 1..];
      var a := attempts[i];
      if a.Some? && a.value.status == 401 {
        return FullExpired, i + 1;
      }
      if a.Some? && a.value.status == 200 && a.value.body.Some? && TruthyValue(a.value.body.value) {
        return FullData(a.value.body.value), i + 1;
      }
      i := i + 1;
    }
    r, sent := FullNone, |attempts|;
  }

  // ---- Lookup results ----

  /** A field of a JSON object, or the default the source passes to `get`. */
  function GetOr(m: map<string, Value>, k: string, default: Value): Value
  {
    if k in m then m[k] else default
  }

  /**
   * The basic result row of one invoice key: the key, the DUE number, the four
   * summary fields, the payload used, the suspension acts fetched and the
   * normalised tables (absent when the normaliser rejects the payload).
   */
  datatype Basic = Basic(chaveNf: string, numeroDue: string, canal: Value, chaveDeAcesso: Value,
                         situacao: Value, valorTotal: Value, data: map<string, Value>,
                         atos: Option<Value>, tables: Option<DueNormalizer.Tables>)

  /** No DUE found (or any error swallowed), an expired token, or a DUE. */
  datatype Lookup = NoDue | Expired | Found(basic: Basic)

  /** What the normaliser makes of a payload and its suspension acts. */
  type Normalizer = (map<string, Value>, Option<Value>) -> Option<DueNormalizer.Tables>

  /** The first element of a non-empty JSON list, when it is an object; anything else makes the source raise. */
  function FirstLink(body: Value): Option<map<string, Value>>
  {
    if body.List? && body.items != [] && body.items[0].Obj? then Some(body.items[0].fields) else None
  }

  /** The body of a reply that passed the status checks, when it is a JSON object. */
  function ObjectBody(a: Reply): Option<map<string, Value>>
  {
    if a.body.Some? && a.body.value.Obj? then Some(a.body.value.fields) else None
  }

  /** Whether the second reply needs the third query: an empty payload, or no items in a non-simplified DUE. */
  function ThirdQueryNeeded(d: map<string, Value>): (r: Option<bool>)
    ensures r.None? <==> d != map[] && FieldLen(d, "itens").None?
    ensures r == Some(true) <==>
              d == map[] || (FieldLen(d, "itens") == Some(0) && GetOr(d, "tipo", Str("")) != Str("SIMPLIFICADA"))
  {
    if d == map[] then Some(true)
    else match FieldLen(d, "itens")
      case None => None
      case Some(n) => Some(n == 0 && GetOr(d, "tipo", Str("")) != Str("SIMPLIFICADA"))
  }

  /** The payload the third query leaves in place, as written: the reply's expiry marker counts as a payload. */
  function ThirdPayload(numeroDue: string, d2: map<string, Value>, third: FullResult): map<string, Value>
  {
    match third
    case FullData(v) => if v.Obj? then v.fields else d2
    case FullExpired => map["error" := Str("token_expirado"), "numero_due" := Str(numeroDue)]
    case FullNone => d2
  }

  /** The suspension acts of the invoice-key lookup: only when the payload links to them and the reply is 200 JSON. */
  function LinkedActs(d2: map<string, Value>, atosReply: Attempt): Option<Value>
  {
    var link := GetOr(d2, "atosConcessoriosSuspensao", Obj(map[]));
    if link.Obj? && TruthyValue(GetOr(link.fields, "href", Null))
       && atosReply.Some? && atosReply.value.status == 200 && atosReply.value.body.Some?
    then Some(atosReply.value.body.value)
    else None
  }

  function BasicOf(chave: string, numeroDue: string, data: map<string, Value>, atos: Option<Value>,
                   valorDefault: Value, normalize: Normalizer): Basic
  {
    Basic(chave, numeroDue, GetOr(data, "canal", Str("")), GetOr(data, "chaveDeAcesso", Str("")),
          GetOr(data, "situacao", Str("")), GetOr(data, "valorTotalMercadoria", valorDefault),
          data, atos, normalize(data, atos))
  }

  /**
   * `consultar_due_por_nf`: the link query, the details query, the optional
   * suspension acts and the optional third query over the detail URLs.
   * `pickThird` says what the third query's result leaves as payload.
   */
  function ByNfWith(chave: string, r1: Attempt, r2: Attempt, atosReply: Attempt, third: seq<Attempt>,
                    normalize: Normalizer, pickThird: (string, map<string, Value>, FullResult) -> map<string, Value>): Lookup
  {
    if r1.None? then NoDue
    else if r1.value.status == 401 then Expired
    else if r1.value.status == 422 || ErrorStatus(r1.value.status) || r1.value.body.None? then NoDue
    else match FirstLink(r1.value.body.value)
      case None => NoDue
      case Some(first) =>
        var numeroDue := TextField(first, "rel");
        if !TruthyValue(GetOr(first, "href", Str(""))) || r2.None? then NoDue
        else if r2.value.status == 401 then Expired
        else if ErrorStatus(r2.value.status) then NoDue
        else match ObjectBody(r2.value)
          case None => NoDue
          case Some(d2) =>
            var atos := LinkedActs(d2, atosReply);
            match ThirdQueryNeeded(d2)
            case None => NoDue
            case Some(needed) =>
              var data := if needed then pickThird(numeroDue, d2, FullLookup(third)) else d2;
              Found(BasicOf(chave, numeroDue, data, atos, Num(0), normalize))
  }

  /** The lookup by invoice key as written. */
  function ByNf(chave: string, r1: Attempt, r2: Attempt, atosReply: Attempt, third: seq<Attempt>,
                normalize: Normalizer): Lookup
  {
    ByNfWith(chave, r1, r2, atosReply, third, normalize, ThirdPayload)
  }

  /** `consultar_due_por_numero`: the details of a known DUE and its suspension acts. */
  function ByNumber(chave: string, numeroDue: string, r: Attempt, atosReply: Attempt, normalize: Normalizer): Lookup
  {
    if r.None? then NoDue
    else if r.value.status == 401 then Expired
    else if r.value.status == 422 || ErrorStatus(r.value.status) then NoDue
    else match ObjectBody(r.value)
      case None => NoDue
      case Some(d) =>
        if d == map[] then NoDue
        else
          var atos := if numeroDue != "" && atosReply.Some? && atosReply.value.status == 200
                          && atosReply.value.body.Some? && NonEmptySized(atosReply.value.body.value)
                      then Some(atosReply.value.body.value) else None;
          Found(BasicOf(chave, numeroDue, d, atos, Str(""), normalize))
  }

  /** A JSON value with a positive `len`; a value without `len` raises, which the source treats as no acts. */
  predicate NonEmptySized(v: Value)
  {
    (v.List? && v.items != []) || (v.Str? && v.s != "") || (v.Obj? && v.fields != map[])
  }

  /** Corrected third-query step: only a dict delivered with status 200 replaces the second reply's payload. */
  function ThirdPayloadKept(numeroDue: string, d2: map<string, Value>, third: FullResult): map<string, Value>
  {
    if third.FullData? && third.data.Obj? then third.data.fields else d2
  }

  /** The lookup by invoice key with the corrected third-query step. */
  function ByNfCorrected(chave: string, r1: Attempt, r2: Attempt, atosReply: Attempt, third: seq<Attempt>,
                         normalize: Normalizer): Lookup
  {
    ByNfWith(chave, r1, r2, atosReply, third, normalize, ThirdPayloadKept)
  }

  /** Only a 401 on the link query or on the details query reports an expired token. */
  lemma ExpiredOnlyFromUnauthorised(chave: string, r1: Attempt, r2: Attempt, atosReply: Attempt,
                                    third: seq<Attempt>, normalize: Normalizer)
    ensures ByNf(chave, r1, r2, atosReply, third, normalize).Expired? ==>
              r1.Some? && (r1.value.status == 401 || (r2.Some? && r2.value.status == 401))
    ensures ByNfCorrected(chave, r1, r2, atosReply, third, normalize).Expired? ==>
              r1.Some? && (r1.value.status == 401 || (r2.Some? && r2.value.status == 401))
  {
  }

  /** A found DUE carries the DUE number the link query named, and the result row the key asked for. */
  lemma FoundByNf(chave: string, r1: Attempt, r2: Attempt, atosReply: Attempt, third: seq<Attempt>,
                  normalize: Normalizer)
    requires ByNf(chave, r1, r2, atosReply, third, normalize).Found?
    ensures r1.Some? && r1.value.status != 401 && r1.value.status != 422 && !ErrorStatus(r1.value.status)
    ensures r1.value.body.Some? && FirstLink(r1.value.body.value).Some?
    ensures var b := ByNf(chave, r1, r2, atosReply, third, normalize).basic;
            b.chaveNf == chave && b.numeroDue == TextField(FirstLink(r1.value.body.value).value, "rel")
            && b.tables == normalize(b.data, b.atos)
  {
  }

  /** When the second reply has items (or is a simplified DUE), the third query's replies play no part. */
  lemma SecondReplySuffices(chave: string, r1: Attempt, r2: Attempt, atosReply: Attempt,
                            third: seq<Attempt>, other: seq<Attempt>, normalize: Normalizer)
    requires r2.Some? && ObjectBody(r2.value).Some? && ThirdQueryNeeded(ObjectBody(r2.value).value) == Some(false)
    ensures ByNf(chave, r1, r2, atosReply, third, normalize) == ByNf(chave, r1, r2, atosReply, other, normalize)
  {
  }

  /** As written: an expired token on the third query turns its error marker into the DUE's payload. */
  lemma ThirdQueryExpiryBecomesPayload(normalize: Normalizer)
    ensures var link := Some(Reply(200, Some(List([Obj(map["rel" := Str("24BR0001"), "href" := Str("h")])]))));
            var details := Some(Reply(200, Some(Obj(map[]))));
            var r := ByNf("k", link, details, None, [Some(Reply(401, None))], normalize);
            r.Found? && r.basic.data == map["error" := Str("token_expirado"), "numero_due" := Str("24BR0001")]
  {
    var first := map["rel" := Str("24BR0001"), "href" := Str("h")];
    assert FirstLink(List([Obj(first)])) == Some(first);
    assert TextField(first, "rel") == "24BR0001";
    assert FullLookup([Some(Reply(401, None))]) == FullExpired;
  }

  /** Corrected: the payload of a found DUE is a JSON object some query returned. */
  lemma CorrectedPayloadIsAReply(chave: string, r1: Attempt, r2: Attempt, atosReply: Attempt,
                                 third: seq<Attempt>, normalize: Normalizer)
    requires ByNfCorrected(chave, r1, r2, atosReply, third, normalize).Found?
    ensures var data := ByNfCorrected(chave, r1, r2, atosReply, third, normalize).basic.data;
            r2.Some? && (ObjectBody(r2.value) == Some(data) || FullLookup(third) == FullData(Obj(data)))
  {
  }

  /** The direct lookup finds a DUE only from a non-empty JSON object; acts only for a known number and a 200 reply. */
  lemma FoundByNumber(chave: string, numeroDue: string, r: Attempt, atosReply: Attempt, normalize: Normalizer)
    ensures var l := ByNumber(chave, numeroDue, r, atosReply, normalize);
            l.Found? <==> r.Some? && r.value.status != 401 && r.value.status != 422 && !ErrorStatus(r.value.status)
                          && ObjectBody(r.value).Some? && ObjectBody(r.value).value != map[]
    ensures var l := ByNumber(chave, numeroDue, r, atosReply, normalize);
            l.Found? ==> l.basic.numeroDue == numeroDue && l.basic.chaveNf == chave
                         && l.basic.data == ObjectBody(r.value).value
                         && (l.basic.atos.Some? ==> numeroDue != "" && atosReply.Some? && atosReply.value.status == 200)
    ensures ByNumber(chave, numeroDue, r, atosReply, normalize).Expired? <==> r.Some? && r.value.status == 401
  {
  }
}
