// The writes of the database manager (src/database/manager.py) over
// abstract tables: upserts keyed by a column, delete-then-insert
// replacement per DUE, the NF→DUE links and the last-sync batch update.
module Persistence {
  import opened Wrappers
  import opened DbValues

  /** A row of nf_due_vinculo, keyed elsewhere by chave_nf. */
  datatype Link = Link(numeroDue: Value, dataVinculo: Value, origem: Value)

  /** The tables the manager writes. */
  datatype Db = Db(
    principal: map<Value, Row>,      // due_principal by numero
    itens: map<Value, Row>,          // due_itens by id
    tratamentos: map<Value, Row>,    // due_item_tratamentos_administrativos by id
    nfExportacao: map<Value, Row>,   // due_item_nota_fiscal_exportacao by due_item_id
    serial: map<string, seq<Row>>,   // the tables refilled per DUE, by name
    links: map<Value, Link>)         // nf_due_vinculo by chave_nf

  // ---- Upserts ----

  /** `INSERT … ON CONFLICT (key) DO UPDATE` of each row in turn: a later row with the same key wins. */
  function Upserted(table: map<Value, Row>, rows: seq<Row>, key: string): (r: map<Value, Row>)
    ensures r.Keys == table.Keys + set x | x in rows :: Get(x, key)
    decreases |rows|
  {
    if rows == [] then table
    else Upserted(table[Get(rows[0], key) := rows[0]], rows[1..], key)
  }

  /** A key no row of the batch carries is left as it was. */
  lemma {:induction false} UpsertedUntouched(table: map<Value, Row>, rows: seq<Row>, key: string, k: Value)
    requires forall x :: x in rows ==> Get(x, key) != k
    ensures k in Upserted(table, rows, key) <==> k in table
    ensures k in table ==> Upserted(table, rows, key)[k] == table[k]
    decreases |rows|
  {
    if rows != [] {
      assert forall x :: x in rows[1..] ==> x in rows;
      UpsertedUntouched(table[Get(rows[0], key) := rows[0]], rows[1..], key, k);
    }
  }

  /** After the upserts, a key holds the last row of the batch carrying it. */
  lemma {:induction false} UpsertedLast(table: map<Value, Row>, rows: seq<Row>, key: string, i: nat)
    requires i < |rows|
    requires forall j :: i < j < |rows| ==> Get(rows[j], key) != Get(rows[i], key)
    ensures Upserted(table, rows, key)[Get(rows[i], key)] == rows[i]
    decreases |rows|
  {
    var t1 := table[Get(rows[0], key) := rows[0]];
    if i == 0 {
      forall x | x in rows[1..] ensures Get(x, key) != Get(rows[0], key) {
        var j :| 0 <= j < |rows[1..]| && rows[1..][j] == x;
        assert rows[j + 1] == x;
      }
      UpsertedUntouched(t1, rows[1..], key, Get(rows[0], key));
    } else {
      assert rows[1..][i - 1] == rows[i];
      UpsertedLast(t1, rows[1..], key, i - 1);
    }
  }

  // ---- due_principal ----

  /** The columns cleaned into the record under their database names, in mapping order; a later pair wins. */
  function MappedRow(registro: Row, mapping: seq<(string, string)>): Row
    decreases |mapping|
  {
    if mapping == [] then map[]
    else
      var prev := MappedRow(registro, mapping[..|mapping| - 1]);
      var (j, c) := mapping[|mapping| - 1];
      if j in registro then prev[c := Clean(registro[j], KindOf(c))] else prev
  }

  /** Only mapped columns present in the record are written. */
  lemma {:induction false} MappedRowColumns(registro: Row, mapping: seq<(string, string)>, c: string)
    ensures c in MappedRow(registro, mapping) <==> exists p :: p in mapping && p.0 in registro && p.1 == c
    decreases |mapping|
  {
    if mapping != [] {
      var init := mapping[..|mapping| - 1];
      MappedRowColumns(registro, init, c);
      assert forall p :: p in mapping <==> p in init || p == mapping[|mapping| - 1];
    }
  }

  /** A written column holds the cleaned cell of the last pair that maps a key of the record to it. */
  lemma {:induction false} MappedRowCell(registro: Row, mapping: seq<(string, string)>, i: nat)
    requires i < |mapping| && mapping[i].0 in registro
    requires forall j :: i < j < |mapping| ==> !(mapping[j].0 in registro && mapping[j].1 == mapping[i].1)
    ensures mapping[i].1 in MappedRow(registro, mapping)
    ensures MappedRow(registro, mapping)[mapping[i].1] == Clean(registro[mapping[i].0], KindOf(mapping[i].1))
    decreases |mapping|
  {
    if i < |mapping| - 1 {
      var init := mapping[..|mapping| - 1];
      assert init[i] == mapping[i];
      MappedRowCell(registro, init, i);
    }
  }

  const TimestampColumns: set<string> := {"data_de_registro", "data_de_criacao", "data_do_cce", "data_do_desembaraco",
                                          "data_do_acd", "data_da_averbacao", "data_ultima_atualizacao"}

  function KindOf(c: string): Kind
  {
    if c in TimestampColumns then Timestamp else Text
  }

  /** The row upserted for one due_principal record: the mapped cells, with the last-sync time defaulted to `now`. */
  function PrincipalRow(registro: Row, mapping: seq<(string, string)>, now: string): (r: Row)
    ensures "data_ultima_atualizacao" in r && r["data_ultima_atualizacao"] != Null
    ensures r.Keys == MappedRow(registro, mapping).Keys + {"data_ultima_atualizacao"}
    ensures forall c :: c in MappedRow(registro, mapping) && (c != "data_ultima_atualizacao" || MappedRow(registro, mapping)[c] != Null)
              ==> r[c] == MappedRow(registro, mapping)[c]
  {
    var m := MappedRow(registro, mapping);
    if "data_ultima_atualizacao" !in m || m["data_ultima_atualizacao"] == Null
    then m["data_ultima_atualizacao" := Str(now)]
    else m
  }

  /**
   * The upsert of one record: without a numero the insert violates the
   * primary key; otherwise the mapped columns overwrite those of the stored
   * row (or make a new one) and its other columns stay.
   */
  function UpsertPrincipal(principal: map<Value, Row>, registro: Row, mapping: seq<(string, string)>, now: string)
    : Option<map<Value, Row>>
  {
    var row := PrincipalRow(registro, mapping, now);
    var k := Get(row, "numero");
    if k == Null then None
    else Some(principal[k := (if k in principal then principal[k] else map[]) + row])
  }

  /**
   * The upsert fails exactly when the row has no numero; otherwise the stored
   * row of that numero gets every written column, keeps its others, and every
   * other DUE is untouched.
   */
  lemma UpsertPrincipalMeaning(principal: map<Value, Row>, registro: Row, mapping: seq<(string, string)>, now: string)
    ensures var row := PrincipalRow(registro, mapping, now);
            UpsertPrincipal(principal, registro, mapping, now).Some? <==> Get(row, "numero") != Null
    ensures var row := PrincipalRow(registro, mapping, now);
            var r := UpsertPrincipal(principal, registro, mapping, now);
            r.Some? ==>
              var k := row["numero"];
              r.value.Keys == principal.Keys + {k}
              && (forall c :: c in r.value[k] <==> c in row || (k in principal && c in principal[k]))
              && (forall c :: c in row ==> r.value[k][c] == row[c])
              && (forall c :: k in principal && c in principal[k] && c !in row ==> r.value[k][c] == principal[k][c])
              && (forall n :: n in principal && n != k ==> r.value[n] == principal[n])
  {
  }

  function UpsertPrincipals(principal: map<Value, Row>, registros: seq<Row>, mapping: seq<(string, string)>, now: string)
    : Option<map<Value, Row>>
    decreases |registros|
  {
    if registros == [] then Some(principal)
    else match UpsertPrincipal(principal, registros[0], mapping, now)
      case None => None
      case Some(p) => UpsertPrincipals(p, registros[1..], mapping, now)
  }

  // ---- Keyed child tables ----

  const ItemFields: seq<string> := [
    "quantidadeNaUnidadeEstatistica", "pesoLiquidoTotal", "valorDaMercadoriaNaCondicaoDeVenda",
    "valorDaMercadoriaNoLocalDeEmbarque", "valorDaMercadoriaNoLocalDeEmbarqueEmReais",
    "valorDaMercadoriaNaCondicaoDeVendaEmReais", "descricaoDaMercadoria", "unidadeComercializada",
    "nomeImportador", "enderecoImportador", "valorTotalCalculadoItem", "quantidadeNaUnidadeComercializada",
    "ncm_codigo", "ncm_descricao", "ncm_unidadeMedidaEstatistica", "exportador_numeroDoDocumento",
    "exportador_tipoDoDocumento", "exportador_nome", "exportador_estrangeiro", "exportador_nacionalidade_codigo",
    "exportador_nacionalidade_nome", "exportador_nacionalidade_nomeResumido", "codigoCondicaoVenda",
    "exportacaoTemporaria"]

  const TratamentoFields: seq<string> := ["mensagem", "impeditivoDeEmbarque", "codigoLPCO", "situacao"]

  const NfFields: seq<string> := [
    "numeroDoItem", "chaveDeAcesso", "modelo", "serie", "numeroDoDocumento", "ufDoEmissor",
    "identificacao_emitente", "emitente_cnpj", "emitente_cpf", "finalidade", "quantidadeDeItens",
    "notaFiscalEletronica", "cfop", "codigoDoProduto", "descricao", "quantidadeEstatistica", "unidadeComercial",
    "valorTotalCalculado", "ncm_codigo", "ncm_descricao", "ncm_unidadeMedidaEstatistica", "apresentadaParaDespacho"]

  /** The listed cells of a record, as `r.get(field)` each. */
  function Copied(r: Row, fields: seq<string>): Row
  {
    map f | f in fields :: Get(r, f)
  }

  /** The due_itens row of a record: id from the DUE and item numbers, the copied cells, the conversion date cleaned. */
  function ItemRow(r: Row): (row: Row)
    ensures Get(row, "id") == Str(ItemId(Get(r, "numero_due"), ItemNumber(r)))
    ensures Get(row, "numero_item") == ItemNumber(r)
  {
    Copied(r, ItemFields)["dataDeConversao" := Clean(Get(r, "dataDeConversao"), Timestamp)]
    ["id" := Str(ItemId(Get(r, "numero_due"), ItemNumber(r)))]
    ["numero_due" := Get(r, "numero_due")]
    ["numero_item" := ItemNumber(r)]
  }

  /** The tratamento row of the record at `position` of its batch; its id is the record's own when it has one. */
  function TratamentoRow(r: Row, position: nat): (row: Row)
    ensures "id" in r ==> Get(row, "id") == r["id"]
    ensures "id" !in r ==> Get(row, "id") == Str(TratamentoDefaultId(Get(r, "numero_due"), TratamentoNumber(r), position))
    ensures Get(row, "due_item_id") == Str(ItemId(Get(r, "numero_due"), TratamentoNumber(r)))
  {
    var n := TratamentoNumber(r);
    var id := if "id" in r then r["id"] else Str(TratamentoDefaultId(Get(r, "numero_due"), n, position));
    Copied(r, TratamentoFields)
    ["id" := id]
    ["due_item_id" := Str(ItemId(Get(r, "numero_due"), n))]
    ["numero_due" := Get(r, "numero_due")]
    ["numero_item" := n]
  }

  /** The export-invoice row of a record; its item number is always an integer. */
  function NfRow(r: Row): (row: Row)
    ensures Get(row, "numero_item") == Num(NfItemNumber(r))
    ensures Get(row, "due_item_id") == Str(ItemId(Get(r, "numero_due"), Num(NfItemNumber(r))))
  {
    Copied(r, NfFields)
    ["due_item_id" := Str(ItemId(Get(r, "numero_due"), Num(NfItemNumber(r))))]
    ["numero_due" := Get(r, "numero_due")]
    ["numero_item" := Num(NfItemNumber(r))]
  }

  function ItemRows(rs: seq<Row>): (out: seq<Row>)
    ensures |out| == |rs| && forall i :: 0 <= i < |rs| ==> out[i] == ItemRow(rs[i])
  {
    seq(|rs|, i requires 0 <= i < |rs| => ItemRow(rs[i]))
  }

  function TratamentoRows(rs: seq<Row>): (out: seq<Row>)
    ensures |out| == |rs| && forall i :: 0 <= i < |rs| ==> out[i] == TratamentoRow(rs[i], i)
  {
    seq(|rs|, i requires 0 <= i < |rs| => TratamentoRow(rs[i], i))
  }

  function NfRows(rs: seq<Row>): (out: seq<Row>)
    ensures |out| == |rs| && forall i :: 0 <= i < |rs| ==> out[i] == NfRow(rs[i])
  {
    seq(|rs|, i requires 0 <= i < |rs| => NfRow(rs[i]))
  }

  /** A tratamento batch fails to insert when a record carries an explicit null id. */
  predicate TratamentosInsertable(rs: seq<Row>)
  {
    forall i :: 0 <= i < |rs| ==> Get(TratamentoRow(rs[i], i), "id") != Null
  }

  // ---- Tables refilled per DUE ----

  /** The truthy DUE numbers of a batch: the DUEs whose stored rows are deleted. */
  function BatchDues(rows: seq<Row>): set<Value>
  {
    set r | r in rows && TruthyValue(Get(r, "numero_due")) :: Get(r, "numero_due")
  }

  /** The stored rows of DUEs outside `dues`, in order. */
  function Kept(stored: seq<Row>, dues: set<Value>): (r: seq<Row>)
  {
    if stored == [] then []
    else (if Get(stored[0], "numero_due") in dues then [] else [stored[0]]) + Kept(stored[1..], dues)
  }

  /** The rows of one DUE, in order. */
  function RowsOf(rows: seq<Row>, d: Value): (r: seq<Row>)
  {
    if rows == [] then []
    else (if Get(rows[0], "numero_due") == d then [rows[0]] else []) + RowsOf(rows[1..], d)
  }

  /** The deletion keeps exactly the stored rows whose DUE is not in the batch. */
  lemma {:induction false} KeptMembers(stored: seq<Row>, dues: set<Value>, x: Row)
    ensures x in Kept(stored, dues) <==> x in stored && Get(x, "numero_due") !in dues
  {
    if stored != [] {
      KeptMembers(stored[1..], dues, x);
      assert x in stored <==> x == stored[0] || x in stored[1..];
    }
  }

  /** The rows of one DUE are exactly those carrying its number. */
  lemma {:induction false} RowsOfMembers(rows: seq<Row>, d: Value, x: Row)
    ensures x in RowsOf(rows, d) <==> x in rows && Get(x, "numero_due") == d
  {
    if rows != [] {
      RowsOfMembers(rows[1..], d, x);
      assert x in rows <==> x == rows[0] || x in rows[1..];
    }
  }

  /** Delete the rows of the batch's DUEs, then insert the batch. */
  function Replaced(stored: seq<Row>, batch: seq<Row>): seq<Row>
  {
    Kept(stored, BatchDues(batch)) + batch
  }

  lemma {:induction false} RowsOfAppend(a: seq<Row>, b: seq<Row>, d: Value)
    ensures RowsOf(a + b, d) == RowsOf(a, d) + RowsOf(b, d)
  {
    if a == [] {
      assert a + b == b;
    } else {
      assert (a + b)[0] == a[0] && (a + b)[1..] == a[1..] + b;
      RowsOfAppend(a[1..], b, d);
      var head := if Get(a[0], "numero_due") == d then [a[0]] else [];
      var ra, rb := RowsOf(a[1..], d), RowsOf(b, d);
      assert RowsOf(a + b, d) == head + RowsOf(a[1..] + b, d);
      assert RowsOf(a, d) == head + ra;
      assert head + (ra + rb) == (head + ra) + rb;
    }
  }

  lemma {:induction false} RowsOfKept(stored: seq<Row>, dues: set<Value>, d: Value)
    ensures RowsOf(Kept(stored, dues), d) == if d in dues then [] else RowsOf(stored, d)
  {
    if stored != [] {
      RowsOfKept(stored[1..], dues, d);
      var head := if Get(stored[0], "numero_due") in dues then [] else [stored[0]];
      RowsOfAppend(head, Kept(stored[1..], dues), d);
    }
  }

  lemma {:induction false} RowsOfNone(rows: seq<Row>, d: Value)
    requires forall x :: x in rows ==> Get(x, "numero_due") != d
    ensures RowsOf(rows, d) == []
  {
    if rows != [] {
      RowsOfNone(rows[1..], d);
    }
  }

  /**
   * After the replacement each DUE of the batch holds exactly its batch rows,
   * and every other DUE (with a truthy number) keeps exactly its stored rows.
   */
  lemma ReplacedPerDue(stored: seq<Row>, batch: seq<Row>, d: Value)
    ensures d in BatchDues(batch) ==> RowsOf(Replaced(stored, batch), d) == RowsOf(batch, d)
    ensures d !in BatchDues(batch) && TruthyValue(d) ==> RowsOf(Replaced(stored, batch), d) == RowsOf(stored, d)
  {
    var dues := BatchDues(batch);
    RowsOfAppend(Kept(stored, dues), batch, d);
    RowsOfKept(stored, dues, d);
    if d !in dues && TruthyValue(d) {
      forall x | x in batch ensures Get(x, "numero_due") != d {
      }
      RowsOfNone(batch, d);
    }
  }

  /** A history event row; the event's text cells are cleaned. */
  function EventRow(r: Row): Row
  {
    map["numero_due" := Get(r, "numero_due"),
        "data_e_hora_do_evento" := Clean(Get(r, "dataEHoraDoEvento"), Timestamp),
        "evento" := Clean(Get(r, "evento"), Text),
        "responsavel" := Clean(Get(r, "responsavel"), Text),
        "informacoes_adicionais" := Clean(Get(r, "informacoesAdicionais"), Text)]
  }

  function EventRows(rs: seq<Row>): (out: seq<Row>)
    ensures |out| == |rs| && forall i :: 0 <= i < |rs| ==> out[i] == EventRow(rs[i])
  {
    seq(|rs|, i requires 0 <= i < |rs| => EventRow(rs[i]))
  }

  /** A blank string cell becomes None. */
  function Blank(v: Value): (r: Value)
    ensures r == Null || r == v
    ensures r == Null <==> v == Null || (v.Str? && Strip(v.s) == [])
  {
    if v.Str? && Strip(v.s) == [] then Null else v
  }

  /** A row of a generic table: the columns of the first record without `id`, blank strings as None. */
  function GenericRow(r: Row, cols: set<string>): (row: Row)
    ensures row.Keys == cols
    ensures forall c :: c in cols && c !in r ==> row[c] == Null
    ensures forall c :: c in cols && c in r && !(r[c].Str? && Strip(r[c].s) == []) ==> row[c] == r[c]
    ensures forall c :: c in cols && c in r && r[c].Str? && Strip(r[c].s) == [] ==> row[c] == Null
  {
    map c | c in cols :: Blank(Get(r, c))
  }

  function GenericRows(rs: seq<Row>): (out: seq<Row>)
    ensures |out| == |rs|
    ensures rs != [] ==> forall i :: 0 <= i < |rs| ==> out[i].Keys == rs[0].Keys - {"id"}
  {
    if rs == [] then []
    else
      var cols := rs[0].Keys - {"id"};
      seq(|rs|, i requires 0 <= i < |rs| => GenericRow(rs[i], cols))
  }

  /** The concession-act columns, JSON name to column; the money and quantity columns are numeric. */
  const AtoMapping: seq<(string, string)> := [
    ("numero_due", "numero_due"), ("ato_numero", "ato_numero"), ("tipo_codigo", "tipo_codigo"),
    ("tipo_descricao", "tipo_descricao"), ("item_numero", "item_numero"), ("item_ncm", "item_ncm"),
    ("beneficiario_cnpj", "beneficiario_cnpj"), ("quantidadeExportada", "quantidade_exportada"),
    ("valorComCoberturaCambial", "valor_com_cobertura_cambial"),
    ("valorSemCoberturaCambial", "valor_sem_cobertura_cambial"), ("itemDeDUE_numero", "item_de_due_numero")]

  const NumericAtoColumns: set<string> := {"quantidade_exportada", "valor_com_cobertura_cambial", "valor_sem_cobertura_cambial"}

  /** `float(v) if v else 0`, with every failure caught as 0. */
  function ToNumber(v: Value): (r: Value)
    ensures r.Num?
    ensures !TruthyValue(v) ==> r == Num(0)
    ensures v.Num? && TruthyValue(v) ==> r == v
  {
    if !TruthyValue(v) then Num(0)
    else match v
      case Num(_) => v
      case Bool(_) => Num(1)
      case Str(s) => (match ParseInt(s) case Some(k) => Num(k) case None => Num(0))
      case _ => Num(0)
  }

  function AtoMapped(r: Row, mapping: seq<(string, string)>): Row
    decreases |mapping|
  {
    if mapping == [] then map[]
    else
      var prev := AtoMapped(r, mapping[..|mapping| - 1]);
      var (j, c) := mapping[|mapping| - 1];
      if j in r then prev[c := if c in NumericAtoColumns then ToNumber(r[j]) else r[j]] else prev
  }

  /** Only mapped fields present in the record are written, and a money or quantity column always holds a number. */
  lemma {:induction false} AtoMappedCells(r: Row, mapping: seq<(string, string)>, c: string)
    ensures c in AtoMapped(r, mapping) <==> exists p :: p in mapping && p.0 in r && p.1 == c
    ensures c in AtoMapped(r, mapping) && c in NumericAtoColumns ==> AtoMapped(r, mapping)[c].Num?
    decreases |mapping|
  {
    if mapping != [] {
      var init := mapping[..|mapping| - 1];
      AtoMappedCells(r, init, c);
      assert forall p :: p in mapping <==> p in init || p == mapping[|mapping| - 1];
    }
  }

  /** The concession-act rows: each record mapped, then every row given the first mapped row's columns. */
  function AtoRows(rs: seq<Row>): (out: seq<Row>)
    ensures |out| == |rs|
  {
    if rs == [] then []
    else
      var cols := AtoMapped(rs[0], AtoMapping).Keys;
      seq(|rs|, i requires 0 <= i < |rs| => map c | c in cols :: Get(AtoMapped(rs[i], AtoMapping), c))
  }

  /**
   * Every concession-act row has the columns the first record maps; a column
   * the record itself does not map is None, and a money or quantity column
   * the record maps is a number.
   */
  lemma AtoRowsMeaning(rs: seq<Row>, i: nat, c: string)
    requires i < |rs|
    ensures AtoRows(rs)[i].Keys == AtoMapped(rs[0], AtoMapping).Keys
    ensures c in AtoRows(rs)[i] && c !in AtoMapped(rs[i], AtoMapping) ==> AtoRows(rs)[i][c] == Null
    ensures c in AtoRows(rs)[i] && c in AtoMapped(rs[i], AtoMapping) ==> AtoRows(rs)[i][c] == AtoMapped(rs[i], AtoMapping)[c]
    ensures c in AtoRows(rs)[i] && c in NumericAtoColumns && c in AtoMapped(rs[i], AtoMapping) ==> AtoRows(rs)[i][c].Num?
  {
    AtoMappedCells(rs[i], AtoMapping, c);
  }

  function SerialTable(db: Db, t: string): seq<Row>
  {
    if t in db.serial then db.serial[t] else []
  }

  function Refilled(db: Db, t: string, batch: seq<Row>): Db
  {
    db.(serial := db.serial[t := Replaced(SerialTable(db, t), batch)])
  }

  // ---- inserir_due_completa ----

  predicate Present(data: map<string, seq<Row>>, t: string)
  {
    t in data && data[t] != []
  }

  const GenericFirst: seq<string> := ["due_item_enquadramentos", "due_item_paises_destino"]
  const GenericSecond: seq<string> := ["due_item_tratamentos_administrativos_orgaos", "due_item_notas_remessa"]
  const GenericThird: seq<string> := [
    "due_item_notas_complementares", "due_item_atributos", "due_item_documentos_importacao",
    "due_item_documentos_transformacao", "due_item_calculo_tributario_tratamentos",
    "due_item_calculo_tributario_quadros", "due_situacoes_carga", "due_solicitacoes",
    "due_declaracao_tributaria_compensacoes", "due_declaracao_tributaria_recolhimentos",
    "due_declaracao_tributaria_contestacoes"]
  const AtoTables: seq<string> := ["due_atos_concessorios_suspensao", "due_atos_concessorios_isencao"]

  /** The generic tables of `ts` refilled in turn, those without rows skipped. */
  function RefillGeneric(db: Db, data: map<string, seq<Row>>, ts: seq<string>): Db
    decreases |ts|
  {
    if ts == [] then db
    else RefillGeneric(if Present(data, ts[0]) then Refilled(db, ts[0], GenericRows(data[ts[0]])) else db, data, ts[1..])
  }

  function RefillAtos(db: Db, data: map<string, seq<Row>>, ts: seq<string>): Db
    decreases |ts|
  {
    if ts == [] then db
    else RefillAtos(if Present(data, ts[0]) then Refilled(db, ts[0], AtoRows(data[ts[0]])) else db, data, ts[1..])
  }

  /** Everything after the tratamentos, which cannot fail. */
  function AfterTratamentos(db: Db, data: map<string, seq<Row>>): Db
  {
    var d1 := RefillGeneric(db, data, GenericSecond);
    var d2 := if Present(data, "due_item_nota_fiscal_exportacao")
              then d1.(nfExportacao := Upserted(d1.nfExportacao, NfRows(data["due_item_nota_fiscal_exportacao"]), "due_item_id"))
              else d1;
    var d3 := RefillGeneric(d2, data, GenericThird);
    var d4 := RefillAtos(d3, data, AtoTables);
    RefillGeneric(d4, data, ["due_exigencias_fiscais"])
  }

  /** The principal records, the history events, the items and the first generic tables. */
  function BeforeTratamentos(db: Db, data: map<string, seq<Row>>, mapping: seq<(string, string)>, now: string): Option<Db>
  {
    var p := if Present(data, "due_principal") then UpsertPrincipals(db.principal, data["due_principal"], mapping, now)
             else Some(db.principal);
    if p.None? then None
    else Some(AfterPrincipal(db.(principal := p.value), data))
  }

  /** The steps after the principal rows: the events, the items and the generic tables before the treatments. */
  function AfterPrincipal(d1: Db, data: map<string, seq<Row>>): Db
  {
    var d2 := if Present(data, "due_eventos_historico") then Refilled(d1, "due_eventos_historico", EventRows(data["due_eventos_historico"])) else d1;
    var d3 := if Present(data, "due_itens") then d2.(itens := Upserted(d2.itens, ItemRows(data["due_itens"]), "id")) else d2;
    RefillGeneric(d3, data, GenericFirst)
  }

  /**
   * The whole insertion, in the source's table order: None (everything
   * rolled back) when a principal record has no numero or a tratamento has a
   * null id. Both failures come before the concession-act tables, whose own
   * commit is therefore never followed by a failing write here.
   */
  function FullInsert(db: Db, data: map<string, seq<Row>>, mapping: seq<(string, string)>, now: string): Option<Db>
  {
    match BeforeTratamentos(db, data, mapping, now)
    case None => None
    case Some(d) =>
      if Present(data, "due_item_tratamentos_administrativos") then
        var rs := data["due_item_tratamentos_administrativos"];
        if TratamentosInsertable(rs)
        then Some(AfterTratamentos(d.(tratamentos := Upserted(d.tratamentos, TratamentoRows(rs), "id")), data))
        else None
      else Some(AfterTratamentos(d, data))
  }

  // ---- inserir_vinculos_batch ----

  /** Every entry names its key and its DUE (`v['chave_nf']` and `v['numero_due']` do not raise). */
  predicate LinksNamed(vinculos: seq<Row>)
  {
    forall v :: v in vinculos ==> "chave_nf" in v && "numero_due" in v
  }

  /** A text value fits a VARCHAR column of the given width; other values are not checked. */
  predicate Fits(x: Value, width: nat)
  {
    x.Str? ==> |x.s| <= width
  }

  /** The rows `execute_values` sends in one INSERT statement (its default page size). */
  const PageSize: nat := 100

  /**
   * The batch is written when every entry names its key and DUE, the NOT
   * NULL columns chave_nf, numero_due and origem get values, the texts fit
   * VARCHAR(44), VARCHAR(14) and VARCHAR(20), and no statement carries one
   * key twice (an ON CONFLICT DO UPDATE cannot change a row twice).
   */
  predicate LinksWritable(vinculos: seq<Row>)
  {
    LinksNamed(vinculos)
    && (forall v :: v in vinculos ==>
          v["chave_nf"] != Null && v["numero_due"] != Null && LinkOf(v, Null).origem != Null
          && Fits(v["chave_nf"], 44) && Fits(v["numero_due"], 14) && Fits(LinkOf(v, Null).origem, 20))
    && (forall i, j :: 0 <= i < j < |vinculos| && i / PageSize == j / PageSize ==>
          vinculos[i]["chave_nf"] != vinculos[j]["chave_nf"])
  }

  function LinkOf(v: Row, now: Value): Link
  {
    Link(Get(v, "numero_due"),
         if "data_vinculo" in v then v["data_vinculo"] else now,
         if "origem" in v then v["origem"] else Str("SISCOMEX"))
  }

  /** Each link upserted by chave_nf in turn, overwriting the DUE number, date and origin. */
  function LinksUpserted(links: map<Value, Link>, vinculos: seq<Row>, now: Value): (r: map<Value, Link>)
    requires LinksNamed(vinculos)
    ensures r.Keys == links.Keys + set v | v in vinculos :: v["chave_nf"]
    decreases |vinculos|
  {
    if vinculos == [] then links
    else
      var v := vinculos[0];
      assert forall x :: x in vinculos[1..] ==> x in vinculos;
      LinksUpserted(links[v["chave_nf"] := LinkOf(v, now)], vinculos[1..], now)
  }

  /** A key no entry names keeps its link. */
  lemma {:induction false} LinksUntouched(links: map<Value, Link>, vinculos: seq<Row>, now: Value, k: Value)
    requires LinksNamed(vinculos)
    requires forall v :: v in vinculos ==> v["chave_nf"] != k
    ensures k in LinksUpserted(links, vinculos, now) <==> k in links
    ensures k in links ==> LinksUpserted(links, vinculos, now)[k] == links[k]
    decreases |vinculos|
  {
    if vinculos != [] {
      assert forall x :: x in vinculos[1..] ==> x in vinculos;
      LinksUntouched(links[vinculos[0]["chave_nf"] := LinkOf(vinculos[0], now)], vinculos[1..], now, k);
    }
  }

  /** Each invoice key ends up linked to the DUE of the last entry naming it. */
  lemma {:induction false} LinksLast(links: map<Value, Link>, vinculos: seq<Row>, now: Value, i: nat)
    requires LinksNamed(vinculos) && i < |vinculos|
    requires forall j :: i < j < |vinculos| ==> vinculos[j]["chave_nf"] != vinculos[i]["chave_nf"]
    ensures LinksUpserted(links, vinculos, now)[vinculos[i]["chave_nf"]] == LinkOf(vinculos[i], now)
    ensures LinksUpserted(links, vinculos, now)[vinculos[i]["chave_nf"]].numeroDue == vinculos[i]["numero_due"]
    decreases |vinculos|
  {
    assert vinculos[0] in vinculos;
    assert forall x :: x in vinculos[1..] ==> x in vinculos;
    var l1 := links[vinculos[0]["chave_nf"] := LinkOf(vinculos[0], now)];
    if i == 0 {
      forall x | x in vinculos[1..] ensures x["chave_nf"] != vinculos[0]["chave_nf"] {
        var j :| 0 <= j < |vinculos[1..]| && vinculos[1..][j] == x;
        assert vinculos[j + 1] == x;
      }
      LinksUntouched(l1, vinculos[1..], now, vinculos[0]["chave_nf"]);
    } else {
      assert vinculos[1..][i - 1] == vinculos[i];
      LinksLast(l1, vinculos[1..], now, i - 1);
    }
  }

  // ---- atualizar_data_ultima_atualizacao_batch ----

  /** A connection probe: alive, closed but reopened, or closed for good. */
  datatype Probe = Alive | Reconnected | Lost

  /** What happens to one lot: the probe before it, whether the UPDATE succeeds, the probe after a failure. */
  datatype LotRun = LotRun(before: Probe, updated: bool, after: Probe)

  const LotSize: nat := 50

  /** The stored DUEs a lot names. */
  function Matched(principal: map<Value, Row>, lote: seq<string>): set<Value>
  {
    set k | k in principal && k.Str? && k.s in lote
  }

  function Touched(principal: map<Value, Row>, lote: seq<string>, agora: string): (r: map<Value, Row>)
    ensures r.Keys == principal.Keys
  {
    map k | k in principal :: if k.Str? && k.s in lote then principal[k]["data_ultima_atualizacao" := Str(agora)] else principal[k]
  }

  /** A lot's update sets the update time on each stored DUE it names and leaves every other DUE as it was. */
  lemma TouchedMeaning(principal: map<Value, Row>, lote: seq<string>, agora: string, k: Value)
    requires k in principal
    ensures k in Matched(principal, lote) ==> Touched(principal, lote, agora)[k] == principal[k]["data_ultima_atualizacao" := Str(agora)]
    ensures k !in Matched(principal, lote) ==> Touched(principal, lote, agora)[k] == principal[k]
  {
  }

  function Lot(numeros: seq<string>, i: nat): (lote: seq<string>)
    requires i < |numeros|
    ensures 0 < |lote| <= LotSize
  {
    numeros[i..if i + LotSize < |numeros| then i + LotSize else |numeros|]
  }

  /** Each lot is the run of consecutive numbers at its offset, 50 long unless it is the last. */
  lemma LotMeaning(numeros: seq<string>, i: nat)
    requires i < |numeros|
    ensures var lote := Lot(numeros, i);
            i + |lote| <= |numeros| && lote == numeros[i..i + |lote|]
            && (i + |lote| < |numeros| ==> |lote| == LotSize)
  {
  }

  /** The lots from offset `i` on: the new table and the rows counted. */
  function LotsFrom(principal: map<Value, Row>, numeros: seq<string>, i: nat, runs: nat -> LotRun, agora: string)
    : (map<Value, Row>, nat)
    decreases |numeros| - i
  {
    if i >= |numeros| then (principal, 0)
    else
      var run := runs(i / LotSize);
      var lote := Lot(numeros, i);
      if run.before == Lost then (principal, 0)
      else if run.updated then
        var (p, n) := LotsFrom(Touched(principal, lote, agora), numeros, i + LotSize, runs, agora);
        (p, |Matched(principal, lote)| + n)
      else if run.after == Lost then (principal, 0)
      else LotsFrom(principal, numeros, i + LotSize, runs, agora)
  }

  /** The whole update: nothing for an empty list or when the first connection cannot be made. */
  function LastSync(principal: map<Value, Row>, numeros: seq<string>, first: Probe, runs: nat -> LotRun, agora: string)
    : (map<Value, Row>, nat)
  {
    if numeros == [] || first == Lost then (principal, 0)
    else LotsFrom(principal, numeros, 0, runs, agora)
  }

  lemma {:induction false} DistinctImage(lote: seq<string>)
    ensures |set x | x in lote :: Str(x)| <= |lote|
  {
    if lote != [] {
      DistinctImage(lote[1..]);
      assert (set x | x in lote :: Str(x)) == (set x | x in lote[1..] :: Str(x)) + {Str(lote[0])};
    }
  }

  /** A lot counts at most as many rows as it names DUEs. */
  lemma MatchedBound(principal: map<Value, Row>, lote: seq<string>)
    ensures |Matched(principal, lote)| <= |lote|
  {
    var a, b := Matched(principal, lote), set x | x in lote :: Str(x);
    assert a <= b;
    assert b == a + (b - a);
    DistinctImage(lote);
  }

  /** The rows counted never exceed the DUE numbers passed, and no DUE is added or removed. */
  lemma {:induction false} LotsFromBound(principal: map<Value, Row>, numeros: seq<string>, i: nat, runs: nat -> LotRun, agora: string)
    ensures LotsFrom(principal, numeros, i, runs, agora).1 <= if i < |numeros| then |numeros| - i else 0
    ensures LotsFrom(principal, numeros, i, runs, agora).0.Keys == principal.Keys
    decreases |numeros| - i
  {
    if i < |numeros| {
      var lote := Lot(numeros, i);
      var run := runs(i / LotSize);
      MatchedBound(principal, lote);
      if run.before != Lost && run.updated {
        LotsFromBound(Touched(principal, lote, agora), numeros, i + LotSize, runs, agora);
      } else if run.before != Lost && run.after != Lost {
        LotsFromBound(principal, numeros, i + LotSize, runs, agora);
      }
    }
  }

  /** The DUE numbers from offset `i` on. */
  function Remaining(numeros: seq<string>, i: nat): seq<string>
  {
    if i < |numeros| then numeros[i..] else []
  }

  /** With every lot updated, each DUE named by the list and stored is marked with `agora`, and others are untouched. */
  lemma {:induction false} AllLotsTouch(principal: map<Value, Row>, numeros: seq<string>, i: nat, runs: nat -> LotRun, agora: string, k: Value)
    requires forall j :: runs(j).before != Lost && runs(j).updated
    requires k in principal
    ensures k in LotsFrom(principal, numeros, i, runs, agora).0
    ensures LotsFrom(principal, numeros, i, runs, agora).0[k]
            == if k.Str? && k.s in Remaining(numeros, i) then principal[k]["data_ultima_atualizacao" := Str(agora)] else principal[k]
    decreases |numeros| - i
  {
    if i < |numeros| {
      var lote := Lot(numeros, i);
      var t := Touched(principal, lote, agora);
      UpdatedLotStep(principal, numeros, i, runs, agora);
      AllLotsTouch(t, numeros, i + LotSize, runs, agora, k);
      RemainingSplit(numeros, i);
      TouchedMeaning(principal, lote, agora, k);
      assert k.Str? ==> (k.s in Remaining(numeros, i) <==> k.s in lote || k.s in Remaining(numeros, i + LotSize));
      if k.Str? && k.s in lote {
        assert k in Matched(principal, lote);
        UpdateTwice(principal[k], "data_ultima_atualizacao", Str(agora));
      } else {
        assert k !in Matched(principal, lote);
      }
    }
  }

  lemma UpdateTwice(row: Row, c: string, v: Value)
    ensures row[c := v][c := v] == row[c := v]
  {
  }

  lemma RemainingSplit(numeros: seq<string>, i: nat)
    requires i < |numeros|
    ensures Remaining(numeros, i) == Lot(numeros, i) + Remaining(numeros, i + LotSize)
  {
  }

  /** An updated lot hands the touched table to the next one. */
  lemma UpdatedLotStep(principal: map<Value, Row>, numeros: seq<string>, i: nat, runs: nat -> LotRun, agora: string)
    requires i < |numeros|
    requires runs(i / LotSize).before != Lost && runs(i / LotSize).updated
    ensures LotsFrom(principal, numeros, i, runs, agora).0
            == LotsFrom(Touched(principal, Lot(numeros, i), agora), numeros, i + LotSize, runs, agora).0
  {
  }

  // ---- The manager ----

  /** The loop of the item, treatment and invoice batch inserts: each record's row, built from the record and its position. */
  method BuildRows(registros: seq<Row>, build: (Row, nat) -> Row) returns (dados: seq<Row>)
    ensures |dados| == |registros|
    ensures forall k :: 0 <= k < |registros| ==> dados[k] == build(registros[k], k)
  {
    dados := [];
    for i := 0 to |registros|
      invariant |dados| == i
      invariant forall k :: 0 <= k < i ==> dados[k] == build(registros[k], k)
    {
      dados := dados + [build(registros[i], |dados|)];
    }
  }

  /** The rows `_inserir_batch_tratamentos_admin` sends, and whether the database accepts them (no null id). */
  method BuildTratamentos(registros: seq<Row>) returns (dados: seq<Row>, ok: bool)
    ensures dados == TratamentoRows(registros)
    ensures ok == TratamentosInsertable(registros)
  {
    dados := BuildRows(registros, TratamentoRow);
    ok := forall k :: 0 <= k < |dados| ==> Get(dados[k], "id") != Null;
  }

  class DatabaseManager {
    var principal: map<Value, Row>
    var itens: map<Value, Row>
    var tratamentos: map<Value, Row>
    var nfExportacao: map<Value, Row>
    var serial: map<string, seq<Row>>
    var links: map<Value, Link>

    function State(): Db
      reads this
    {
      Db(principal, itens, tratamentos, nfExportacao, serial, links)
    }

    constructor (db: Db)
      ensures State() == db
    {
      principal, itens, tratamentos, nfExportacao, serial, links :=
        db.principal, db.itens, db.tratamentos, db.nfExportacao, db.serial, db.links;
    }

    method Restore(db: Db)
      modifies this
      ensures State() == db
    {
      principal, itens, tratamentos, nfExportacao, serial, links :=
        db.principal, db.itens, db.tratamentos, db.nfExportacao, db.serial, db.links;
    }

    /**
     * `executar_query`: the statement's effect on the tables, or None when it
     * raises. Success commits and answers true; a failure rolls back and
     * answers false. Without commit the change is not made durable.
     */
    method ExecuteQuery(effect: Db -> Option<Db>, commit: bool) returns (ok: bool)
      modifies this
      ensures ok <==> effect(old(State())).Some?
      ensures State() == if ok && commit then effect(old(State())).value else old(State())
    {
      var r := effect(State());
      ok := r.Some?;
      if ok && commit {
        Restore(r.value);
      }
    }

    /** `_inserir_due_principal_normalizado` for one record. */
    method UpsertPrincipalRecord(registro: Row, mapping: seq<(string, string)>, now: string) returns (ok: bool)
      modifies this
      ensures var r := UpsertPrincipal(old(principal), registro, mapping, now);
              ok == r.Some? && principal == (if ok then r.value else old(principal))
      ensures itens == old(itens) && tratamentos == old(tratamentos) && nfExportacao == old(nfExportacao)
      ensures serial == old(serial) && links == old(links)
    {
      var dados: Row := map[];
      var i := 0;
      while i < |mapping|
        invariant 0 <= i <= |mapping|
        invariant dados == MappedRow(registro, mapping[..i])
      {
        var (j, c) := mapping[i];
        assert mapping[..i + 1][..i] == mapping[..i];
        if j in registro {
          dados := dados[c := Clean(registro[j], KindOf(c))];
        }
        i := i + 1;
      }
      assert mapping[..i] == mapping;
      if "data_ultima_atualizacao" !in dados || dados["data_ultima_atualizacao"] == Null {
        dados := dados["data_ultima_atualizacao" := Str(now)];
      }
      var k := Get(dados, "numero");
      if k == Null {
        return false;
      }
      principal := principal[k := (if k in principal then principal[k] else map[]) + dados];
      ok := true;
    }

    /** Each principal record in turn; the first failure stops the insertion. */
    method UpsertPrincipalRecords(registros: seq<Row>, mapping: seq<(string, string)>, now: string) returns (ok: bool)
      modifies this
      ensures var r := UpsertPrincipals(old(principal), registros, mapping, now);
              ok == r.Some? && (ok ==> principal == r.value)
      ensures itens == old(itens) && tratamentos == old(tratamentos) && nfExportacao == old(nfExportacao)
      ensures serial == old(serial) && links == old(links)
    {
      var i := 0;
      while i < |registros|
        invariant 0 <= i <= |registros|
        invariant UpsertPrincipals(principal, registros[i..], mapping, now) == UpsertPrincipals(old(principal), registros, mapping, now)
        invariant itens == old(itens) && tratamentos == old(tratamentos) && nfExportacao == old(nfExportacao)
        invariant serial == old(serial) && links == old(links)
      {
        assert registros[i..][1..] == registros[i + 1..];
        var one := UpsertPrincipalRecord(registros[i], mapping, now);
        if !one {
          return false;
        }
        i := i + 1;
      }
      ok := true;
    }

    /** `_inserir_batch_itens`: one row per record, upserted by id. */
    method InsertItems(registros: seq<Row>)
      modifies this
      ensures itens == Upserted(old(itens), ItemRows(registros), "id")
      ensures principal == old(principal) && tratamentos == old(tratamentos) && nfExportacao == old(nfExportacao)
      ensures serial == old(serial) && links == old(links)
    {
      var dados := BuildRows(registros, (r, _) => ItemRow(r));
      assert dados == ItemRows(registros);
      itens := Upserted(itens, dados, "id");
    }

    /** `_inserir_batch_tratamentos_admin`: one row per record, the default id from its position; a null id fails. */
    method InsertTratamentos(registros: seq<Row>) returns (ok: bool)
      modifies this
      ensures ok == TratamentosInsertable(registros)
      ensures tratamentos == if ok then Upserted(old(tratamentos), TratamentoRows(registros), "id") else old(tratamentos)
      ensures principal == old(principal) && itens == old(itens) && nfExportacao == old(nfExportacao)
      ensures serial == old(serial) && links == old(links)
    {
      var dados;
      dados, ok := BuildTratamentos(registros);
      if ok {
        tratamentos := Upserted(tratamentos, dados, "id");
      }
    }

    /** `_inserir_batch_nf_exportacao`: one row per record, upserted by due_item_id. */
    method InsertNfExportacao(registros: seq<Row>)
      modifies this
      ensures nfExportacao == Upserted(old(nfExportacao), NfRows(registros), "due_item_id")
      ensures principal == old(principal) && itens == old(itens) && tratamentos == old(tratamentos)
      ensures serial == old(serial) && links == old(links)
    {
      var dados := BuildRows(registros, (r, _) => NfRow(r));
      assert dados == NfRows(registros);
      nfExportacao := Upserted(nfExportacao, dados, "due_item_id");
    }

    /** Delete the stored rows of the batch's DUEs from table `t`, then insert `dados`. */
    method Refill(t: string, dados: seq<Row>)
      modifies this
      ensures State() == Refilled(old(State()), t, dados)
    {
      var stored := if t in serial then serial[t] else [];
      var dues: set<Value> := {};
      for i := 0 to |dados|
        invariant dues == BatchDues(dados[..i])
      {
        assert dados[..i + 1] == dados[..i] + [dados[i]];
        if TruthyValue(Get(dados[i], "numero_due")) {
          dues := dues + {Get(dados[i], "numero_due")};
        }
      }
      assert dados[..|dados|] == dados;
      serial := serial[t := Kept(stored, dues) + dados];
    }

    /** `_inserir_batch_eventos_historico`. */
    method InsertEvents(registros: seq<Row>)
      modifies this
      ensures State() == Refilled(old(State()), "due_eventos_historico", EventRows(registros))
    {
      var dados: seq<Row> := [];
      for i := 0 to |registros|
        invariant |dados| == i
        invariant forall k :: 0 <= k < i ==> dados[k] == EventRow(registros[k])
      {
        dados := dados + [EventRow(registros[i])];
      }
      assert dados == EventRows(registros);
      Refill("due_eventos_historico", dados);
    }

    /** `_inserir_batch_generico`: the first record's columns without `id`, blank strings as None. */
    method InsertGeneric(t: string, registros: seq<Row>)
      requires registros != []
      modifies this
      ensures State() == Refilled(old(State()), t, GenericRows(registros))
    {
      var cols := registros[0].Keys - {"id"};
      var dados: seq<Row> := [];
      for i := 0 to |registros|
        invariant |dados| == i
        invariant forall k :: 0 <= k < i ==> dados[k] == GenericRow(registros[k], cols)
      {
        dados := dados + [GenericRow(registros[i], cols)];
      }
      assert dados == GenericRows(registros);
      Refill(t, dados);
    }

    /** `_inserir_batch_atos_concessorios`. */
    method InsertAtos(t: string, registros: seq<Row>)
      requires registros != []
      modifies this
      ensures State() == Refilled(old(State()), t, AtoRows(registros))
    {
      var mapeados: seq<Row> := [];
      for i := 0 to |registros|
        invariant |mapeados| == i
        invariant forall k :: 0 <= k < i ==> mapeados[k] == AtoMapped(registros[k], AtoMapping)
      {
        mapeados := mapeados + [AtoMapped(registros[i], AtoMapping)];
      }
      var cols := mapeados[0].Keys;
      var valores := seq(|mapeados|, i requires 0 <= i < |mapeados| => map c | c in cols :: Get(mapeados[i], c));
      assert valores == AtoRows(registros);
      Refill(t, valores);
    }

    method RefillGenericTables(data: map<string, seq<Row>>, ts: seq<string>)
      modifies this
      ensures State() == RefillGeneric(old(State()), data, ts)
    {
      var i := 0;
      while i < |ts|
        invariant 0 <= i <= |ts|
        invariant RefillGeneric(State(), data, ts[i..]) == RefillGeneric(old(State()), data, ts)
      {
        assert ts[i..][1..] == ts[i + 1..];
        if Present(data, ts[i]) {
          InsertGeneric(ts[i], data[ts[i]]);
        }
        i := i + 1;
      }
    }

    method RefillAtoTables(data: map<string, seq<Row>>, ts: seq<string>)
      modifies this
      ensures State() == RefillAtos(old(State()), data, ts)
    {
      var i := 0;
      while i < |ts|
        invariant 0 <= i <= |ts|
        invariant RefillAtos(State(), data, ts[i..]) == RefillAtos(old(State()), data, ts)
      {
        assert ts[i..][1..] == ts[i + 1..];
        if Present(data, ts[i]) {
          InsertAtos(ts[i], data[ts[i]]);
        }
        i := i + 1;
      }
    }

    /** The writes before the tratamentos: the principal records (which may fail), events, items, first generic tables. */
    method InsertBeforeTratamentos(data: map<string, seq<Row>>, mapping: seq<(string, string)>, now: string) returns (ok: bool)
      modifies this
      ensures var r := BeforeTratamentos(old(State()), data, mapping, now);
              ok == r.Some? && (ok ==> State() == r.value)
    {
      ghost var d0 := State();
      if Present(data, "due_principal") {
        ok := UpsertPrincipalRecords(data["due_principal"], mapping, now);
        if !ok {
          return;
        }
      }
      assert State() == d0.(principal := principal);
      InsertAfterPrincipal(data);
      ok := true;
    }

    /** The events, the items and the generic tables before the treatments. */
    method InsertAfterPrincipal(data: map<string, seq<Row>>)
      modifies this
      ensures State() == AfterPrincipal(old(State()), data)
    {
      ghost var d1 := State();
      if Present(data, "due_eventos_historico") {
        InsertEvents(data["due_eventos_historico"]);
      }
      ghost var d2 := State();
      if Present(data, "due_itens") {
        InsertItems(data["due_itens"]);
      }
      ghost var d3 := State();
      assert d3 == if Present(data, "due_itens") then d2.(itens := Upserted(d2.itens, ItemRows(data["due_itens"]), "id")) else d2;
      RefillGenericTables(data, GenericFirst);
    }

    /** The writes after the tratamentos, none of which fails. */
    method InsertAfterTratamentos(data: map<string, seq<Row>>)
      modifies this
      ensures State() == AfterTratamentos(old(State()), data)
    {
      RefillGenericTables(data, GenericSecond);
      ghost var d1 := State();
      if Present(data, "due_item_nota_fiscal_exportacao") {
        InsertNfExportacao(data["due_item_nota_fiscal_exportacao"]);
      }
      ghost var d2 := State();
      assert d2 == if Present(data, "due_item_nota_fiscal_exportacao")
                   then d1.(nfExportacao := Upserted(d1.nfExportacao, NfRows(data["due_item_nota_fiscal_exportacao"]), "due_item_id"))
                   else d1;
      RefillGenericTables(data, GenericThird);
      RefillAtoTables(data, AtoTables);
      RefillGenericTables(data, ["due_exigencias_fiscais"]);
    }

    /**
     * `inserir_due_completa`: every table, in order; a failing write rolls
     * back what is not yet committed and answers false.
     */
    method InsertFullDue(data: map<string, seq<Row>>, mapping: seq<(string, string)>, now: string) returns (ok: bool)
      modifies this
      ensures ok == FullInsert(old(State()), data, mapping, now).Some?
      ensures State() == if ok then FullInsert(old(State()), data, mapping, now).value else old(State())
    {
      var snapshot := State();
      ok := InsertBeforeTratamentos(data, mapping, now);
      if !ok {
        Restore(snapshot);
        return;
      }
      ghost var d := State();
      if Present(data, "due_item_tratamentos_administrativos") {
        ok := InsertTratamentos(data["due_item_tratamentos_administrativos"]);
        if !ok {
          Restore(snapshot);
          return;
        }
      }
      assert State() == if Present(data, "due_item_tratamentos_administrativos")
                        then d.(tratamentos := Upserted(d.tratamentos, TratamentoRows(data["due_item_tratamentos_administrativos"]), "id"))
                        else d;
      InsertAfterTratamentos(data);
    }

    /** `inserir_vinculos_batch`: the number of links written, 0 for an empty batch or a failed one. */
    method InsertLinks(vinculos: seq<Row>, now: Value) returns (n: nat)
      modifies this
      ensures n == if vinculos != [] && LinksWritable(vinculos) then |vinculos| else 0
      ensures links == if n > 0 then LinksUpserted(old(links), vinculos, now) else old(links)
      ensures principal == old(principal) && itens == old(itens) && tratamentos == old(tratamentos)
      ensures nfExportacao == old(nfExportacao) && serial == old(serial)
    {
      if vinculos == [] || !LinksWritable(vinculos) {
        return 0;
      }
      var i := 0;
      var acc := links;
      while i < |vinculos|
        invariant 0 <= i <= |vinculos|
        invariant LinksNamed(vinculos[i..])
        invariant LinksUpserted(acc, vinculos[i..], now) == LinksUpserted(old(links), vinculos, now)
      {
        assert vinculos[i..][1..] == vinculos[i + 1..];
        assert vinculos[i] in vinculos[i..];
        acc := acc[vinculos[i]["chave_nf"] := LinkOf(vinculos[i], now)];
        i := i + 1;
      }
      links := acc;
      n := |vinculos|;
    }

    /** `atualizar_data_ultima_atualizacao_batch`: lots of 50 numbers, the rows counted per lot summed. */
    method TouchLastSync(numeros: seq<string>, first: Probe, runs: nat -> LotRun, agora: string) returns (total: nat)
      modifies this
      ensures (principal, total) == LastSync(old(principal), numeros, first, runs, agora)
      ensures itens == old(itens) && tratamentos == old(tratamentos) && nfExportacao == old(nfExportacao)
      ensures serial == old(serial) && links == old(links)
    {
      if numeros == [] || first == Lost {
        return 0;
      }
      total := 0;
      var i := 0;
      while i < |numeros|
        invariant i % LotSize == 0
        invariant var (p, n) := LotsFrom(principal, numeros, i, runs, agora);
                  (p, total + n) == LotsFrom(old(principal), numeros, 0, runs, agora)
        invariant itens == old(itens) && tratamentos == old(tratamentos) && nfExportacao == old(nfExportacao)
        invariant serial == old(serial) && links == old(links)
        decreases |numeros| - i
      {
        var lote := Lot(numeros, i);
        var run := runs(i / LotSize);
        if run.before == Lost {
          break;
        }
        if run.updated {
          total := total + |Matched(principal, lote)|;
          principal := Touched(principal, lote, agora);
        } else if run.after == Lost {
          break;
        }
        i := i + LotSize;
      }
    }
  }
}
