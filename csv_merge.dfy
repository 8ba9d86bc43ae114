// The incremental save of the consolidated tables into one CSV file per
// table (`_salvar_resultados_normalizados_csv`): new rows replace the stored
// rows that share their composite key, and are written after the rows kept.
module CsvMerge {
  import opened Wrappers

  /** A CSV row as a dictionary from column name to cell. */
  type Row = map<string, Value>

  /** A table's CSV file as the save finds it. */
  datatype CsvFile = NoFile | Unreadable | Stored(rows: seq<Row>)

  /** The composite primary key of each consolidated table. */
  const PrimaryKeys: map<string, seq<string>> := map[
    "due_principal" := ["numero"],
    "due_eventos_historico" := ["numero_due", "data", "tipoEvento"],
    "due_itens" := ["numero_due", "numeroItem"],
    "due_item_enquadramentos" := ["numero_due", "numeroItem", "codigo"],
    "due_item_paises_destino" := ["numero_due", "numeroItem", "codigoPaisDestino"],
    "due_item_tratamentos_administrativos" := ["numero_due", "numeroItem", "codigoLPCO"],
    "due_item_tratamentos_administrativos_orgaos" := ["numero_due", "numeroItem", "codigoLPCO", "codigoOrgao"],
    "due_item_notas_remessa" := ["numero_due", "numeroItem", "chaveDeAcesso"],
    "due_item_nota_fiscal_exportacao" := ["numero_due", "chaveDeAcesso"],
    "due_item_notas_complementares" := ["numero_due", "numeroItem", "chaveDeAcesso"],
    "due_item_atributos" := ["numero_due", "numeroItem", "codigo"],
    "due_item_documentos_importacao" := ["numero_due", "numeroItem", "numero"],
    "due_item_documentos_transformacao" := ["numero_due", "numeroItem", "numero"],
    "due_item_calculo_tributario_tratamentos" := ["numero_due", "numeroItem"],
    "due_item_calculo_tributario_quadros" := ["numero_due", "numeroItem", "codigoQuadro"],
    "due_situacoes_carga" := ["numero_due", "sequencial"],
    "due_solicitacoes" := ["numero_due", "tipoSolicitacao", "dataSolicitacao"],
    "due_declaracao_tributaria_compensacoes" := ["numero_due", "codigoReceita"],
    "due_declaracao_tributaria_recolhimentos" := ["numero_due", "codigoReceita"],
    "due_declaracao_tributaria_contestacoes" := ["numero_due"],
    "due_atos_concessorios_suspensao" := ["numero_due", "numero"]
  ]

  /** The key columns of a table; a table without an entry is keyed by `numero_due`. */
  function PrimaryKey(table: string): (r: seq<string>)
    ensures r != []
    ensures table !in PrimaryKeys ==> r == ["numero_due"]
  {
    if table in PrimaryKeys then PrimaryKeys[table] else ["numero_due"]
  }

  /** The columns of the frame built from `rows`: every name some row has. */
  function Columns(rows: seq<Row>): set<string>
  {
    set r, c | r in rows && c in r :: c
  }

  /** The key columns both frames have, in key order. */
  function ValidKeys(keys: seq<string>, a: set<string>, b: set<string>): (r: seq<string>)
    ensures |r| <= |keys|
    ensures forall c :: c in r <==> c in keys && c in a && c in b
  {
    if keys == [] then []
    else (if keys[0] in a && keys[0] in b then [keys[0]] else []) + ValidKeys(keys[1..], a, b)
  }

  /** A row's cell in a column it may lack (a missing cell is the frame's empty cell). */
  function Cell(row: Row, c: string): Option<Value>
  {
    if c in row then Some(row[c]) else None
  }

  /** A row's composite key over `cols`. */
  function KeyOf(row: Row, cols: seq<string>): (k: seq<Option<Value>>)
    ensures |k| == |cols|
    ensures forall i :: 0 <= i < |cols| ==> k[i] == Cell(row, cols[i])
  {
    seq(|cols|, i requires 0 <= i < |cols| => Cell(row, cols[i]))
  }

  function Keys(rows: seq<Row>, cols: seq<string>): set<seq<Option<Value>>>
  {
    set r | r in rows :: KeyOf(r, cols)
  }

  /** The rows of `rows`, in order, whose key is not among `taken`. */
  function Unmatched(rows: seq<Row>, cols: seq<string>, taken: set<seq<Option<Value>>>): (r: seq<Row>)
    ensures |r| <= |rows|
  {
    if rows == [] then []
    else (if KeyOf(rows[0], cols) in taken then [] else [rows[0]]) + Unmatched(rows[1..], cols, taken)
  }

  /** The rows kept are exactly those whose key is not taken. */
  lemma {:induction false} UnmatchedMembers(rows: seq<Row>, cols: seq<string>, taken: set<seq<Option<Value>>>, x: Row)
    ensures x in Unmatched(rows, cols, taken) <==> x in rows && KeyOf(x, cols) !in taken
  {
    if rows != [] {
      UnmatchedMembers(rows[1..], cols, taken, x);
      assert x in rows <==> x == rows[0] || x in rows[1..];
    }
  }

  /**
   * What a table's file holds after the save, or None when the table has no
   * new rows and its file is left alone.
   */
  function Merge(table: string, novo: seq<Row>, file: CsvFile, incremental: bool): (r: Option<seq<Row>>)
    ensures r.None? <==> novo == []
    ensures r.Some? ==> |novo| <= |r.value| && r.value[|r.value| - |novo|..] == novo
    ensures r.Some? && !(incremental && file.Stored?) ==> r.value == novo
    ensures r.Some? && incremental && file.Stored? ==>
              var valid := ValidKeys(PrimaryKey(table), Columns(novo), Columns(file.rows));
              forall x :: x in r.value[..|r.value| - |novo|] <==>
                            x in file.rows && (valid == [] || KeyOf(x, valid) !in Keys(novo, valid))
  {
    if novo == [] then None
    else if incremental && file.Stored? then
      var valid := ValidKeys(PrimaryKey(table), Columns(novo), Columns(file.rows));
      if valid != [] then
        var kept := Unmatched(file.rows, valid, Keys(novo, valid));
        assert forall x :: x in kept <==> x in file.rows && KeyOf(x, valid) !in Keys(novo, valid) by {
          forall x ensures x in kept <==> x in file.rows && KeyOf(x, valid) !in Keys(novo, valid) {
            UnmatchedMembers(file.rows, valid, Keys(novo, valid), x);
          }
        }
        assert (kept + novo)[..|kept|] == kept;
        Some(kept + novo)
      else Some(file.rows + novo)
    else Some(novo)
  }

  /** Unmatched keeps the rows of a concatenation part by part. */
  lemma {:induction false} UnmatchedAppend(a: seq<Row>, b: seq<Row>, cols: seq<string>, taken: set<seq<Option<Value>>>)
    ensures Unmatched(a + b, cols, taken) == Unmatched(a, cols, taken) + Unmatched(b, cols, taken)
  {
    if a != [] {
      var head := if KeyOf(a[0], cols) in taken then [] else [a[0]];
      assert (a + b)[0] == a[0];
      assert (a + b)[1..] == a[1..] + b;
      UnmatchedAppend(a[1..], b, cols, taken);
      var ra, rb := Unmatched(a[1..], cols, taken), Unmatched(b, cols, taken);
      assert Unmatched(a + b, cols, taken) == head + Unmatched(a[1..] + b, cols, taken);
      assert Unmatched(a, cols, taken) == head + ra;
      assert head + (ra + rb) == (head + ra) + rb;
    } else {
      assert a + b == b;
    }
  }

  lemma {:induction false} UnmatchedNone(rows: seq<Row>, cols: seq<string>, taken: set<seq<Option<Value>>>)
    requires forall x :: x in rows ==> KeyOf(x, cols) !in taken
    ensures Unmatched(rows, cols, taken) == rows
  {
    if rows != [] {
      UnmatchedNone(rows[1..], cols, taken);
    }
  }

  lemma {:induction false} UnmatchedAll(rows: seq<Row>, cols: seq<string>, taken: set<seq<Option<Value>>>)
    requires forall x :: x in rows ==> KeyOf(x, cols) in taken
    ensures Unmatched(rows, cols, taken) == []
  {
    if rows != [] {
      UnmatchedAll(rows[1..], cols, taken);
    }
  }

  lemma {:induction false} AllKeysValid(keys: seq<string>, a: set<string>, b: set<string>)
    requires forall c :: c in keys ==> c in a && c in b
    ensures ValidKeys(keys, a, b) == keys
  {
    if keys != [] {
      AllKeysValid(keys[1..], a, b);
    }
  }

  lemma ColumnsAppend(a: seq<Row>, b: seq<Row>)
    ensures Columns(a + b) == Columns(a) + Columns(b)
  {
    forall c | c in Columns(a + b) ensures c in Columns(a) + Columns(b) {
      var r :| r in a + b && c in r;
    }
    forall c | c in Columns(a) + Columns(b) ensures c in Columns(a + b) {
      if c in Columns(a) {
        var r :| r in a && c in r;
        assert r in a + b;
      } else {
        var r :| r in b && c in r;
        assert r in a + b;
      }
    }
  }

  /**
   * Saving the same rows twice leaves the file as saving them once, when both
   * the new rows and the stored ones carry every key column.
   */
  lemma MergeKeyed(table: string, novo: seq<Row>, stored: seq<Row>)
    requires novo != []
    requires ValidKeys(PrimaryKey(table), Columns(novo), Columns(stored)) == PrimaryKey(table)
    ensures var keys := PrimaryKey(table);
            Merge(table, novo, Stored(stored), true) == Some(Unmatched(stored, keys, Keys(novo, keys)) + novo)
  {
  }

  lemma MergeIdempotent(table: string, novo: seq<Row>, stored: seq<Row>)
    requires novo != []
    requires forall c :: c in PrimaryKey(table) ==> c in Columns(novo) && c in Columns(stored)
    ensures Merge(table, novo, Stored(Merge(table, novo, Stored(stored), true).value), true)
            == Merge(table, novo, Stored(stored), true)
  {
    var keys := PrimaryKey(table);
    var taken := Keys(novo, keys);
    AllKeysValid(keys, Columns(novo), Columns(stored));
    MergeKeyed(table, novo, stored);
    var kept := Unmatched(stored, keys, taken);
    var once := kept + novo;
    ColumnsAppend(kept, novo);
    AllKeysValid(keys, Columns(novo), Columns(once));
    MergeKeyed(table, novo, once);
    UnmatchedAppend(kept, novo, keys, taken);
    UnmatchedNone(kept, keys, taken);
    UnmatchedAll(novo, keys, taken);
    assert Unmatched(once, keys, taken) == kept;
  }

  /** No two rows share a key over `cols`. */
  predicate UniqueKeys(rows: seq<Row>, cols: seq<string>)
  {
    forall i, j :: 0 <= i < j < |rows| ==> KeyOf(rows[i], cols) != KeyOf(rows[j], cols)
  }

  lemma {:induction false} UnmatchedUnique(rows: seq<Row>, cols: seq<string>, taken: set<seq<Option<Value>>>)
    requires UniqueKeys(rows, cols)
    ensures UniqueKeys(Unmatched(rows, cols, taken), cols)
  {
    if rows != [] {
      UnmatchedUnique(rows[1..], cols, taken);
      var rest := Unmatched(rows[1..], cols, taken);
      if KeyOf(rows[0], cols) !in taken {
        var r := [rows[0]] + rest;
        forall i, j | 0 <= i < j < |r| ensures KeyOf(r[i], cols) != KeyOf(r[j], cols) {
          if i == 0 {
            assert r[j] in rest;
            UnmatchedMembers(rows[1..], cols, taken, r[j]);
            assert r[j] in rows[1..];
            var k :| 0 <= k < |rows[1..]| && rows[1..][k] == r[j];
            assert rows[k + 1] == r[j];
          } else {
            assert r[i] == rest[i - 1] && r[j] == rest[j - 1];
          }
        }
      }
    }
  }

  /** When the table is keyed, the file keeps unique keys if the stored and the new rows each have them. */
  lemma MergeKeepsKeysUnique(table: string, novo: seq<Row>, stored: seq<Row>)
    requires novo != []
    requires var valid := ValidKeys(PrimaryKey(table), Columns(novo), Columns(stored));
             valid != [] && UniqueKeys(stored, valid) && UniqueKeys(novo, valid)
    ensures var valid := ValidKeys(PrimaryKey(table), Columns(novo), Columns(stored));
            UniqueKeys(Merge(table, novo, Stored(stored), true).value, valid)
  {
    var valid := ValidKeys(PrimaryKey(table), Columns(novo), Columns(stored));
    var kept := Unmatched(stored, valid, Keys(novo, valid));
    UnmatchedUnique(stored, valid, Keys(novo, valid));
    var r := kept + novo;
    forall i, j | 0 <= i < j < |r| ensures KeyOf(r[i], valid) != KeyOf(r[j], valid) {
      if j < |kept| {
        assert r[i] == kept[i] && r[j] == kept[j];
      } else if i >= |kept| {
        assert r[i] == novo[i - |kept|] && r[j] == novo[j - |kept|];
      } else {
        assert r[i] in kept && r[j] in novo;
        UnmatchedMembers(stored, valid, Keys(novo, valid), r[i]);
      }
    }
  }

  /** The file a table has before the save: NoFile when it has none. */
  function Existing(files: map<string, CsvFile>, t: string): (f: CsvFile)
    ensures f.Stored? ==> t in files
  {
    if t in files then files[t] else NoFile
  }

  /** The files after the save of one table's new rows: none when there are no new rows. */
  function SaveOne(files: map<string, CsvFile>, t: string, novo: seq<Row>, incremental: bool): (r: map<string, CsvFile>)
    ensures r.Keys == files.Keys + (if novo != [] then {t} else {})
    ensures forall u :: u in files && u != t ==> r[u] == files[u]
    ensures novo == [] ==> r == files
  {
    var m := Merge(t, novo, Existing(files, t), incremental);
    if m.Some? then files[t := Stored(m.value)] else files
  }

  /** The files after the save of each (table, new rows) pair in turn. */
  function SaveAll(files: map<string, CsvFile>, data: seq<(string, seq<Row>)>, incremental: bool): (r: map<string, CsvFile>)
    ensures r.Keys == files.Keys + set p | p in data && p.1 != [] :: p.0
    ensures forall t :: t in files && (forall p :: p in data && p.0 == t ==> p.1 == []) ==> r[t] == files[t]
    decreases |data|
  {
    if data == [] then files
    else SaveAll(SaveOne(files, data[0].0, data[0].1, incremental), data[1..], incremental)
  }

  /**
   * Each table with new rows ends up holding the merge of those rows into the
   * file it had before the save. The pairs come from a dict, so no table is
   * named twice.
   */
  lemma {:induction false} SaveAllWrites(files: map<string, CsvFile>, data: seq<(string, seq<Row>)>, incremental: bool, i: nat)
    requires forall i, j :: 0 <= i < j < |data| ==> data[i].0 != data[j].0
    requires i < |data| && data[i].1 != []
    ensures SaveAll(files, data, incremental)[data[i].0]
            == Stored(Merge(data[i].0, data[i].1, Existing(files, data[i].0), incremental).value)
    decreases |data|
  {
    var next := SaveOne(files, data[0].0, data[0].1, incremental);
    if i == 0 {
      assert forall p :: p in data[1..] ==> p.0 != data[0].0 by {
        forall p | p in data[1..] ensures p.0 != data[0].0 {
          var k :| 0 <= k < |data[1..]| && data[1..][k] == p;
          assert data[k + 1] == p;
        }
      }
    } else {
      assert data[1..][i - 1] == data[i];
      assert Existing(next, data[i].0) == Existing(files, data[i].0);
      SaveAllWrites(next, data[1..], incremental, i - 1);
    }
  }
}
