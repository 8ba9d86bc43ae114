// The support tables of the TABX API (src/api/siscomex/tabx.py and
// download_tabelas.py): the request for a table's data, the handling of one
// table, and the reshaping of its metadata and records into rows. Both
// scripts share this logic; they differ only in how the field list is sent.
module SupportTables {
  import opened Wrappers
  import DV = DbValues

  /** A normalised row: column name to cell. */
  type Row = map<string, Value>

  /** The TABX base address. */
  const TabxBase: string := "https://portalunico.siscomex.gov.br/tabx/api/ext"

  // ---- Reading decoded JSON as the scripts do ----

  /** A dict's entry, or `default` when the key is absent. */
  function Field(m: map<string, Value>, k: string, default: Value): Value
  {
    if k in m then m[k] else default
  }

  /** `v.get(k, default)`; None when `v` is not a dict and the call raises. */
  function GetOr(v: Value, k: string, default: Value): (r: Option<Value>)
    ensures r.Some? <==> v.Obj?
    ensures v.Obj? ==> r.value == Field(v.fields, k, default)
  {
    if v.Obj? then Some(Field(v.fields, k, default)) else None
  }

  /**
   * What a `for` loop whose body reads every element as a dict gets through:
   * a list's items; nothing for an empty string or dict; None (the loop
   * raises) for anything else, since a non-empty string or dict yields
   * strings and a scalar is not iterable.
   */
  function Elements(v: Value): (r: Option<seq<Value>>)
    ensures TruthyValue(v) && r.Some? ==> v.List? && r.value == v.items && r.value != []
    ensures v.List? ==> r == Some(v.items)
  {
    match v
    case List(xs) => Some(xs)
    case Str(s) => if s == "" then Some([]) else None
    case Obj(m) => if m == map[] then Some([]) else None
    case _ => None
  }

  /** `f` applied to each element, or None when it fails on any. */
  function Traverse<T, U>(xs: seq<T>, f: T -> Option<U>): (r: Option<seq<U>>)
    ensures r.Some? <==> forall i :: 0 <= i < |xs| ==> f(xs[i]).Some?
    ensures r.Some? ==> |r.value| == |xs| && forall i :: 0 <= i < |xs| ==> r.value[i] == f(xs[i]).value
  {
    if xs == [] then Some([])
    else
      var init := xs[..|xs| - 1];
      assert forall i :: 0 <= i < |init| ==> init[i] == xs[i];
      match Traverse(init, f)
      case None => None
      case Some(ys) =>
        match f(xs[|xs| - 1])
        case None => None
        case Some(y) => Some(ys + [y])
  }

  function Flatten<T>(xss: seq<seq<T>>): (r: seq<T>)
  {
    if xss == [] then [] else Flatten(xss[..|xss| - 1]) + xss[|xss| - 1]
  }

  // ---- Names ----

  /** `s.replace(' ', '_')`. */
  function Underscored(s: string): (r: string)
    ensures |r| == |s|
    ensures forall i :: 0 <= i < |s| ==> r[i] == (if s[i] == ' ' then '_' else s[i])
  {
    seq(|s|, i requires 0 <= i < |s| => if s[i] == ' ' then '_' else s[i])
  }

  /** The column of a record field: its name in lower case with spaces as underscores. */
  function ColumnName(s: string): (r: string)
    ensures |r| == |s|
    ensures forall i :: 0 <= i < |r| ==> r[i] != ' ' && !('A' <= r[i] <= 'Z')
    ensures forall i :: 0 <= i < |r| ==> r[i] == (if s[i] == ' ' then '_' else DV.LowerChar(s[i]))
  {
    Underscored(DV.Lower(s))
  }

  /** Column names are stable: deriving a column from a column changes nothing. */
  lemma ColumnNameIdempotent(s: string)
    ensures ColumnName(ColumnName(s)) == ColumnName(s)
  {
  }

  /** The structure holding a table's records. */
  function DataKey(nome: string): string
  {
    "tabela_" + DV.Lower(nome)
  }

  /** The structure holding a table's field descriptions. */
  function MetaKey(nome: string): string
  {
    DataKey(nome) + "_metadados"
  }

  // ---- The data request ----

  /** The two scripts: the current module and the older stand-alone one. */
  datatype Script = Tabx | Standalone

  /**
   * A data request: `Tabx` posts the field list, `Standalone` puts it in the
   * `camposRetorno` query parameter (as JSON, URL-encoded); without it, a
   * plain GET.
   */
  datatype Request = Post(url: string, campos: seq<Value>) | Get(url: string, camposRetorno: Option<seq<Value>>)

  function DataUrl(nome: string): string
  {
    TabxBase + "/tabela/" + nome + "?nivel=1"
  }

  /** The name each metadata field is requested by: `campo.get('nome', '')`. */
  function RequestedName(campo: Value): Option<Value>
  {
    GetOr(campo, "nome", Str(""))
  }

  /** The request `consultar_dados_tabela` sends; None when building it raises, which the function turns into no data. */
  function DataRequest(script: Script, nome: string, metadados: Value): Option<Request>
  {
    if !TruthyValue(metadados) then Some(Get(DataUrl(nome), None))
    else match GetOr(metadados, "campos", Null)
      case None => None
      case Some(c) =>
        if !TruthyValue(c) then Some(Get(DataUrl(nome), None))
        else match Elements(c)
          case None => None
          case Some(cs) =>
            match Traverse(cs, RequestedName)
            case None => None
            case Some(names) =>
              Some(if script == Tabx then Post(DataUrl(nome), names) else Get(DataUrl(nome), Some(names)))
  }

  /** Metadata that lists its fields: a dict whose `campos` is a non-empty list of dicts. */
  predicate ListsFields(metadados: Value)
  {
    metadados.Obj? && "campos" in metadados.fields && metadados.fields["campos"].List?
    && metadados.fields["campos"].items != []
    && forall i :: 0 <= i < |metadados.fields["campos"].items| ==> metadados.fields["campos"].items[i].Obj?
  }

  /**
   * The field list is sent iff the metadata lists its fields, and then it
   * is the fields' names in order, by POST in one script and in the URL in
   * the other; metadata without fields gives a plain GET.
   */
  lemma DataRequestMeaning(script: Script, nome: string, metadados: Value)
    ensures !TruthyValue(metadados) ==> DataRequest(script, nome, metadados) == Some(Get(DataUrl(nome), None))
    ensures metadados.Obj? && !TruthyValue(Field(metadados.fields, "campos", Null)) ==>
              DataRequest(script, nome, metadados) == Some(Get(DataUrl(nome), None))
    ensures ListsFields(metadados) ==>
              var cs := metadados.fields["campos"].items;
              var names := seq(|cs|, i requires 0 <= i < |cs| => Field(cs[i].fields, "nome", Str("")));
              DataRequest(script, nome, metadados) ==
                Some(if script == Tabx then Post(DataUrl(nome), names) else Get(DataUrl(nome), Some(names)))
    ensures DataRequest(script, nome, metadados).Some? && DataRequest(script, nome, metadados).value.Post? ==>
              script == Tabx && ListsFields(metadados)
    ensures DataRequest(script, nome, metadados).Some? && DataRequest(script, nome, metadados).value.Get? ==>
              (DataRequest(script, nome, metadados).value.camposRetorno.Some? <==> script == Standalone && ListsFields(metadados))
  {
    if ListsFields(metadados) {
      var cs := metadados.fields["campos"].items;
      var names := seq(|cs|, i requires 0 <= i < |cs| => Field(cs[i].fields, "nome", Str("")));
      assert forall i :: 0 <= i < |cs| ==> RequestedName(cs[i]) == Some(names[i]);
      var t := Traverse(cs, RequestedName);
      assert t.value == names;
    }
    if metadados.Obj? && "campos" in metadados.fields && TruthyValue(metadados.fields["campos"]) {
      var c := metadados.fields["campos"];
      if Elements(c).Some? {
        var cs := Elements(c).value;
        var t := Traverse(cs, RequestedName);
        if t.Some? {
          assert forall i :: 0 <= i < |cs| ==> RequestedName(cs[i]).Some?;
        }
      }
    }
  }

  /** The two scripts ask for the same fields. */
  lemma ScriptsRequestSameFields(nome: string, metadados: Value)
    ensures DataRequest(Tabx, nome, metadados).None? <==> DataRequest(Standalone, nome, metadados).None?
    ensures DataRequest(Tabx, nome, metadados).Some? && DataRequest(Tabx, nome, metadados).value.Post? ==>
              DataRequest(Standalone, nome, metadados) ==
                Some(Get(DataUrl(nome), Some(DataRequest(Tabx, nome, metadados).value.campos)))
  {
  }

  // ---- One table ----

  /** What `processar_tabela_individual` returns. */
  datatype TableResult =
    | NoResult
    | RateLimited(tabela: string)
    | TokenExpired(tabela: string)
    | Fetched(nome: string, metadados: Value, dados: Value)

  /** A marker dict `{"error": e, ...}`. */
  predicate ErrorIs(v: Value, e: string)
  {
    v.Obj? && "error" in v.fields && v.fields["error"] == Str(e)
  }

  /**
   * What `consultar_dados_tabela` decides before it builds any request: go
   * on, a token renewal that failed, or the hourly limit of the data query
   * reached (with the limiter's reason).
   */
  datatype DataGate = Proceed | RenewalFailed | HourLimitReached(motivo: Value)

  /** The data reply: the gate's marker dict, no data when the request cannot be built, else the reply to it. */
  function DataReply(script: Script, nome: string, metadados: Value, gate: DataGate, reply: Request -> Value): Value
  {
    match gate
    case RenewalFailed => Obj(map["error" := Str("token_expirado")])
    case HourLimitReached(motivo) => Obj(map["error" := Str("rate_limit"), "motivo" := motivo])
    case Proceed =>
      match DataRequest(script, nome, metadados)
      case None => Null
      case Some(q) => reply(q)
  }

  /**
   * `processar_tabela_individual`: `metadados` is the metadata reply (a
   * marker dict, None as `Null`, or the JSON), `gate` the data step's own
   * checks and `reply` gives the data reply to the request sent.
   */
  function ProcessTable(script: Script, nome: string, metadados: Value, gate: DataGate, reply: Request -> Value): TableResult
  {
    if nome == "" then NoResult
    else if ErrorIs(metadados, "rate_limit") then RateLimited(nome)
    else if ErrorIs(metadados, "token_expirado") then TokenExpired(nome)
    else
      var dados := DataReply(script, nome, metadados, gate, reply);
      if ErrorIs(dados, "rate_limit") then RateLimited(nome)
      else if ErrorIs(dados, "token_expirado") then TokenExpired(nome)
      else if !TruthyValue(dados) || !TruthyValue(metadados) then NoResult
      else Fetched(nome, metadados, dados)
  }

  /**
   * An empty name is skipped; a marker of either reply is passed on with
   * the table's name, the metadata's first; the data step's failed renewal
   * or reached limit is passed on even when no request could be built;
   * otherwise the table is fetched iff the request can be built and both
   * replies are non-empty, and it carries them.
   */
  lemma ProcessTableMeaning(script: Script, nome: string, metadados: Value, gate: DataGate, reply: Request -> Value)
    ensures nome == "" ==> ProcessTable(script, nome, metadados, gate, reply) == NoResult
    ensures nome != "" && ErrorIs(metadados, "rate_limit") ==>
              ProcessTable(script, nome, metadados, gate, reply) == RateLimited(nome)
    ensures nome != "" && ErrorIs(metadados, "token_expirado") ==>
              ProcessTable(script, nome, metadados, gate, reply) == TokenExpired(nome)
    ensures nome != "" && !ErrorIs(metadados, "rate_limit") && !ErrorIs(metadados, "token_expirado") ==>
              (gate.RenewalFailed? ==> ProcessTable(script, nome, metadados, gate, reply) == TokenExpired(nome))
              && (gate.HourLimitReached? ==> ProcessTable(script, nome, metadados, gate, reply) == RateLimited(nome))
    ensures ProcessTable(script, nome, metadados, gate, reply).RateLimited? ==>
              ProcessTable(script, nome, metadados, gate, reply).tabela == nome
    ensures ProcessTable(script, nome, metadados, gate, reply).TokenExpired? ==>
              ProcessTable(script, nome, metadados, gate, reply).tabela == nome
    ensures ProcessTable(script, nome, metadados, gate, reply).Fetched? <==>
              nome != "" && !ErrorIs(metadados, "rate_limit") && !ErrorIs(metadados, "token_expirado")
              && gate == Proceed && DataRequest(script, nome, metadados).Some?
              && var d := reply(DataRequest(script, nome, metadados).value);
                 !ErrorIs(d, "rate_limit") && !ErrorIs(d, "token_expirado") && TruthyValue(d) && TruthyValue(metadados)
    ensures ProcessTable(script, nome, metadados, gate, reply).Fetched? ==>
              var r := ProcessTable(script, nome, metadados, gate, reply);
              r.nome == nome && r.metadados == metadados && r.dados == reply(DataRequest(script, nome, metadados).value)
  {
  }

  /** Metadata with a field that is not a dict still meets the data step's hourly limit first. */
  lemma UnbuildableRequestLimited(script: Script, nome: string, motivo: Value, reply: Request -> Value)
    requires nome != ""
    ensures var m := Obj(map["campos" := List([Num(1)])]);
            DataRequest(script, nome, m).None?
            && ProcessTable(script, nome, m, HourLimitReached(motivo), reply) == RateLimited(nome)
            && ProcessTable(script, nome, m, Proceed, reply) == NoResult
  {
    var m := Obj(map["campos" := List([Num(1)])]);
    assert !ErrorIs(m, "rate_limit") && !ErrorIs(m, "token_expirado");
    assert TruthyValue(m) && GetOr(m, "campos", Null) == Some(List([Num(1)]));
    assert Elements(List([Num(1)])) == Some([Num(1)]);
    assert RequestedName(Num(1)).None?;
    assert Traverse([Num(1)], RequestedName).None?;
  }

  // ---- Metadata rows ----

  /** The row describing one metadata field, with the scripts' defaults; None when the field is not a dict. */
  function MetaRow(nome: string, campo: Value): (r: Option<Row>)
    ensures r.Some? <==> campo.Obj?
    ensures r.Some? ==> "nome_tabela" in r.value && "campo_nome" in r.value && "campo_tamanho" in r.value
    ensures r.Some? ==> r.value["nome_tabela"] == Str(nome)
                        && r.value["campo_nome"] == Field(campo.fields, "nome", Str(""))
                        && r.value["campo_tamanho"] == Field(campo.fields, "tamanho", Num(0))
  {
    match campo
    case Obj(f) =>
      Some(map[
        "nome_tabela" := Str(nome),
        "campo_nome" := Field(f, "nome", Str("")),
        "campo_tipo" := Field(f, "tipo", Str("")),
        "campo_tamanho" := Field(f, "tamanho", Num(0)),
        "campo_obrigatorio" := Field(f, "obrigatorio", Bool(false)),
        "campo_chave_negocio" := Field(f, "chaveNegocio", Bool(false)),
        "campo_estrangeiro" := Field(f, "campoEstrangeiro", Bool(false)),
        "tabela_estrangeira" := Field(f, "nomeTabelaEstrangeira", Str("")),
        "campo_descricao" := Field(f, "descricao", Str("")),
        "campo_rotulo" := Field(f, "rotulo", Str("")),
        "possui_dominio" := Field(f, "possuiDominio", Bool(false))
      ])
    case _ => None
  }

  /** The metadata rows: one per field when the metadata lists fields, none otherwise; None when reading raises. */
  function MetaSection(nome: string, metadados: Value): Option<seq<Row>>
  {
    if !TruthyValue(metadados) then Some([])
    else match GetOr(metadados, "campos", Null)
      case None => None
      case Some(c) =>
        if !TruthyValue(c) then Some([])
        else match Elements(c)
          case None => None
          case Some(cs) => Traverse(cs, (campo: Value) => MetaRow(nome, campo))
  }

  // ---- Data rows ----

  /** Column assignments in the order the loop makes them. */
  type Writes = seq<(string, Value)>

  /** The row after the assignments: a later one to a column overwrites an earlier one. */
  function Apply(row: Row, ws: Writes): Row
  {
    if ws == [] then row else Apply(row, ws[..|ws| - 1])[ws[|ws| - 1].0 := ws[|ws| - 1].1]
  }

  /** The value of the last assignment to `k`, if any. */
  function LastWrite(ws: Writes, k: string): Option<Value>
  {
    if ws == [] then None
    else if ws[|ws| - 1].0 == k then Some(ws[|ws| - 1].1)
    else LastWrite(ws[..|ws| - 1], k)
  }

  /** Each column ends with its last assignment; a column never assigned keeps its starting value. */
  /** A column present before the assignments is still present after them. */
  lemma {:induction false} ApplyKeepsKey(row: Row, ws: Writes, k: string)
    requires k in row
    ensures k in Apply(row, ws)
  {
    if ws != [] {
      ApplyKeepsKey(row, ws[..|ws| - 1], k);
    }
  }

  lemma {:induction false} ApplyMeaning(row: Row, ws: Writes)
    ensures forall k :: k in Apply(row, ws) <==> k in row || LastWrite(ws, k).Some?
    ensures forall k :: LastWrite(ws, k).Some? ==> Apply(row, ws)[k] == LastWrite(ws, k).value
    ensures forall k :: k in row && LastWrite(ws, k).None? ==> Apply(row, ws)[k] == row[k]
  {
    if ws != [] {
      ApplyMeaning(row, ws[..|ws| - 1]);
    }
  }

  /** The column of one field of a foreign record: `<lower(nomeTabela)>_<lower(nome)>`, and its value. */
  function ForeignWrite(estrangeira: map<string, Value>, campo: Value): Option<(string, Value)>
  {
    var tabela := Field(estrangeira, "nomeTabela", Str(""));
    match GetOr(campo, "nome", Str(""))
    case None => None
    case Some(n) =>
      if !tabela.Str? || !n.Str? then None
      else Some((DV.Lower(tabela.s) + "_" + DV.Lower(n.s), Field(campo.fields, "valor", Str(""))))
  }

  /** The assignments of one foreign record; an absent `campos` means none, an unusable one raises. */
  function ForeignRecordWrites(estrangeira: map<string, Value>, registro: Value): Option<Writes>
  {
    match GetOr(registro, "campos", List([]))
    case None => None
    case Some(c) =>
      match Elements(c)
      case None => None
      case Some(cs) => Traverse(cs, (campo: Value) => ForeignWrite(estrangeira, campo))
  }

  /**
   * The assignments one record field makes: its own column, then, when it
   * carries foreign-table records, one column per field of each of them.
   */
  function FieldWrites(campo: Value): Option<Writes>
  {
    if !campo.Obj? then None
    else
      var f := campo.fields;
      var nome := Field(f, "nome", Str(""));
      if !nome.Str? then None
      else
        var own := [(ColumnName(nome.s), Field(f, "valor", Str("")))];
        var de := Field(f, "dadosTabelaEstrangeira", Null);
        if !TruthyValue(de) then Some(own)
        else match GetOr(de, "dados", Null)
          case None => None
          case Some(d) =>
            if !TruthyValue(d) then Some(own)
            else match Elements(d)
              case None => None
              case Some(regs) =>
                match Traverse(regs, (r: Value) => ForeignRecordWrites(de.fields, r))
                case None => None
                case Some(wss) => Some(own + Flatten(wss))
  }

  /** A field with no foreign-table data assigns exactly its own column. */
  lemma PlainFieldWrites(campo: Value)
    requires campo.Obj? && Field(campo.fields, "nome", Str("")).Str?
    requires !TruthyValue(Field(campo.fields, "dadosTabelaEstrangeira", Null))
    ensures FieldWrites(campo) ==
              Some([(ColumnName(Field(campo.fields, "nome", Str("")).s), Field(campo.fields, "valor", Str("")))])
  {
  }

  /** A record with fields: the row `{'nome_tabela': nome}` after every field's assignments. */
  predicate HasFields(registro: Value)
  {
    registro.Obj? && TruthyValue(Field(registro.fields, "campos", Null))
  }

  /** The row of one record: None when reading raises, Some(None) when it has no fields and is skipped. */
  function DataRow(nome: string, registro: Value): (r: Option<Option<Row>>)
    ensures r.Some? ==> (r.value.Some? <==> HasFields(registro))
    ensures r.Some? && r.value.Some? ==> "nome_tabela" in r.value.value
  {
    match GetOr(registro, "campos", Null)
    case None => None
    case Some(c) =>
      if !TruthyValue(c) then Some(None)
      else match Elements(c)
        case None => None
        case Some(cs) =>
          match Traverse(cs, FieldWrites)
          case None => None
          case Some(wss) =>
            var row := Apply(map["nome_tabela" := Str(nome)], Flatten(wss));
            ApplyKeepsKey(map["nome_tabela" := Str(nome)], Flatten(wss), "nome_tabela");
            Some(Some(row))
  }

  /** The rows of the records in order, skipping records without fields. */
  function DataRows(nome: string, regs: seq<Value>): (r: Option<seq<Row>>)
  {
    if regs == [] then Some([])
    else match DataRows(nome, regs[..|regs| - 1])
      case None => None
      case Some(rows) =>
        match DataRow(nome, regs[|regs| - 1])
        case None => None
        case Some(None) => Some(rows)
        case Some(Some(row)) => Some(rows + [row])
  }

  /** One row per record with fields, in record order. */
  lemma {:induction false} DataRowsMeaning(nome: string, regs: seq<Value>)
    ensures DataRows(nome, regs).Some? ==> |DataRows(nome, regs).value| == CountWhere(regs, HasFields)
    ensures DataRows(nome, regs).Some? <==> forall i :: 0 <= i < |regs| ==> DataRow(nome, regs[i]).Some?
  {
    if regs != [] {
      var init := regs[..|regs| - 1];
      DataRowsMeaning(nome, init);
      assert forall i :: 0 <= i < |init| ==> init[i] == regs[i];
    }
  }

  /** The data rows: the records of `dados` when the reply lists any. */
  function DataSection(nome: string, dados: Value): Option<seq<Row>>
  {
    if !TruthyValue(dados) then Some([])
    else match GetOr(dados, "dados", Null)
      case None => None
      case Some(d) =>
        if !TruthyValue(d) then Some([])
        else match Elements(d)
          case None => None
          case Some(regs) => DataRows(nome, regs)
  }

  // ---- normalizar_dados_tabela ----

  /** Structures in insertion order, each with its rows. */
  type Structures = seq<(string, seq<Row>)>

  /** `normalizar_dados_tabela`: the data structure and then the metadata one; None when reading the replies raises. */
  function Normalize(nome: string, metadados: Value, dados: Value): Option<Structures>
  {
    match MetaSection(nome, metadados)
    case None => None
    case Some(meta) =>
      match DataSection(nome, dados)
      case None => None
      case Some(rows) => Some([(DataKey(nome), rows), (MetaKey(nome), meta)])
  }

  /**
   * A normalised table has exactly its two structures, distinct; its
   * metadata rows describe the listed fields one by one, each naming the
   * table; its data rows are one per record with fields.
   */
  lemma NormalizeMeaning(nome: string, metadados: Value, dados: Value)
    ensures Normalize(nome, metadados, dados).Some? ==>
              var s := Normalize(nome, metadados, dados).value;
              |s| == 2 && s[0].0 == DataKey(nome) && s[1].0 == MetaKey(nome) && DataKey(nome) != MetaKey(nome)
    ensures Normalize(nome, metadados, dados).Some? && ListsFields(metadados) ==>
              var meta := Normalize(nome, metadados, dados).value[1].1;
              var cs := metadados.fields["campos"].items;
              |meta| == |cs| && forall i :: 0 <= i < |cs| ==> meta[i] == MetaRow(nome, cs[i]).value
    ensures Normalize(nome, metadados, dados).Some? && !(metadados.Obj? && TruthyValue(Field(metadados.fields, "campos", Null))) ==>
              Normalize(nome, metadados, dados).value[1].1 == []
    ensures Normalize(nome, metadados, dados).Some? && dados.Obj? && "dados" in dados.fields && dados.fields["dados"].List?
            && dados.fields["dados"].items != [] ==>
              |Normalize(nome, metadados, dados).value[0].1| == CountWhere(dados.fields["dados"].items, HasFields)
  {
    if Normalize(nome, metadados, dados).Some? && dados.Obj? && "dados" in dados.fields && dados.fields["dados"].List?
       && dados.fields["dados"].items != [] {
      DataRowsMeaning(nome, dados.fields["dados"].items);
    }
  }

  /** A field whose name differs from another's only by case or spaces lands in the same column, and the later one wins. */
  lemma LaterFieldOverwrites(nome: string, a: Value, b: Value)
    requires a.Obj? && Field(a.fields, "nome", Str("")).Str? && !TruthyValue(Field(a.fields, "dadosTabelaEstrangeira", Null))
    requires b.Obj? && Field(b.fields, "nome", Str("")).Str? && !TruthyValue(Field(b.fields, "dadosTabelaEstrangeira", Null))
    requires ColumnName(Field(a.fields, "nome", Str("")).s) == ColumnName(Field(b.fields, "nome", Str("")).s)
    ensures var reg := Obj(map["campos" := List([a, b])]);
            DataRow(nome, reg).Some? && DataRow(nome, reg).value.Some?
            && DataRow(nome, reg).value.value[ColumnName(Field(b.fields, "nome", Str("")).s)] == Field(b.fields, "valor", Str(""))
  {
    PlainFieldWrites(a);
    PlainFieldWrites(b);
    var col := ColumnName(Field(b.fields, "nome", Str("")).s);
    var wa := FieldWrites(a).value;
    var wb := FieldWrites(b).value;
    var t := Traverse([a, b], FieldWrites);
    assert [a, b][0] == a && [a, b][1] == b;
    assert t.Some?;
    assert t.value == [wa, wb];
    var ws := Flatten([wa, wb]);
    assert [wa, wb][..1] == [wa];
    assert [wa][..0] == [];
    assert Flatten([wa]) == wa;
    assert ws == wa + wb;
    assert LastWrite(ws, col) == Some(Field(b.fields, "valor", Str("")));
    ApplyMeaning(map["nome_tabela" := Str(nome)], ws);
  }
}
