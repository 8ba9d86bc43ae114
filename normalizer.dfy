// `processar_dados_due`: one DUE payload flattened into row lists, one list
// per target table. The payload keeps the structure the normaliser walks
// (lists, item numbers, nested lists); each element is carried as an opaque
// JSON value, so the column-by-column copying of fields is not modelled.
module DueNormalizer {
  import opened Wrappers

  /** An administrative treatment of an item and its list of agencies. */
  datatype Tratamento = Tratamento(src: Value, orgaos: seq<Value>)

  datatype Item = Item(
    src: Value,
    numero: Option<int>,
    enquadramentos: seq<Value>,
    paisesDestino: seq<Value>,
    tratamentos: seq<Tratamento>,
    notasRemessa: seq<Value>,
    nfExportacao: Value,
    notasComplementares: seq<Value>,
    atributos: seq<Value>,
    documentosImportacao: seq<Value>,
    documentosTransformacao: seq<Value>,
    calculoTratamentos: seq<Value>,
    calculoQuadros: seq<Value>)

  /** A DUE payload that is a non-empty dict; `numero` is "" when absent. */
  datatype Due = Due(
    src: Value,
    numero: string,
    eventos: seq<Value>,
    itens: seq<Item>,
    situacoesCarga: seq<Value>,
    solicitacoes: seq<Value>,
    compensacoes: seq<Value>,
    recolhimentos: seq<Value>,
    contestacoes: seq<Value>)

  datatype Table =
    | DuePrincipal | EventosHistorico | Itens | ItemEnquadramentos | ItemPaisesDestino
    | ItemTratamentos | ItemTratamentosOrgaos | ItemNotasRemessa | ItemNfExportacao
    | ItemNotasComplementares | ItemAtributos | ItemDocumentosImportacao | ItemDocumentosTransformacao
    | ItemCalculoTratamentos | ItemCalculoQuadros | SituacoesCarga | Solicitacoes
    | Compensacoes | Recolhimentos | Contestacoes | AtosSuspensao | AtosIsencao | ExigenciasFiscais

  /** The table keys of the result dict. */
  function TableName(t: Table): string
  {
    match t
    case DuePrincipal => "due_principal"
    case EventosHistorico => "due_eventos_historico"
    case Itens => "due_itens"
    case ItemEnquadramentos => "due_item_enquadramentos"
    case ItemPaisesDestino => "due_item_paises_destino"
    case ItemTratamentos => "due_item_tratamentos_administrativos"
    case ItemTratamentosOrgaos => "due_item_tratamentos_administrativos_orgaos"
    case ItemNotasRemessa => "due_item_notas_remessa"
    case ItemNfExportacao => "due_item_nota_fiscal_exportacao"
    case ItemNotasComplementares => "due_item_notas_complementares"
    case ItemAtributos => "due_item_atributos"
    case ItemDocumentosImportacao => "due_item_documentos_importacao"
    case ItemDocumentosTransformacao => "due_item_documentos_transformacao"
    case ItemCalculoTratamentos => "due_item_calculo_tributario_tratamentos"
    case ItemCalculoQuadros => "due_item_calculo_tributario_quadros"
    case SituacoesCarga => "due_situacoes_carga"
    case Solicitacoes => "due_solicitacoes"
    case Compensacoes => "due_declaracao_tributaria_compensacoes"
    case Recolhimentos => "due_declaracao_tributaria_recolhimentos"
    case Contestacoes => "due_declaracao_tributaria_contestacoes"
    case AtosSuspensao => "due_atos_concessorios_suspensao"
    case AtosIsencao => "due_atos_concessorios_isencao"
    case ExigenciasFiscais => "due_exigencias_fiscais"
  }

  /** Every table the normaliser appends to. */
  const AllTables: set<Table> := {DuePrincipal, EventosHistorico, Itens, ItemEnquadramentos,
    ItemPaisesDestino, ItemTratamentos, ItemTratamentosOrgaos, ItemNotasRemessa, ItemNfExportacao,
    ItemNotasComplementares, ItemAtributos, ItemDocumentosImportacao, ItemDocumentosTransformacao,
    ItemCalculoTratamentos, ItemCalculoQuadros, SituacoesCarga, Solicitacoes, Compensacoes,
    Recolhimentos, Contestacoes, AtosSuspensao, AtosIsencao, ExigenciasFiscais}

  lemma AllTablesListed()
    ensures forall t: Table :: t in AllTables
  {
    forall t: Table
      ensures t in AllTables
    {
      match t
      case DuePrincipal => case EventosHistorico => case Itens => case ItemEnquadramentos =>
      case ItemPaisesDestino => case ItemTratamentos => case ItemTratamentosOrgaos => case ItemNotasRemessa =>
      case ItemNfExportacao => case ItemNotasComplementares => case ItemAtributos =>
      case ItemDocumentosImportacao => case ItemDocumentosTransformacao => case ItemCalculoTratamentos =>
      case ItemCalculoQuadros => case SituacoesCarga => case Solicitacoes => case Compensacoes =>
      case Recolhimentos => case Contestacoes => case AtosSuspensao => case AtosIsencao =>
      case ExigenciasFiscais =>
    }
  }

  /** The two lists the source appends to without creating them first. */
  predicate Initialised(t: Table)
  {
    !t.AtosIsencao? && !t.ExigenciasFiscais?
  }

  /** Item tables filled from an item's own fields, its treatments and its invoices. */
  predicate ItemHead(t: Table)
  {
    t.Itens? || t.ItemEnquadramentos? || t.ItemPaisesDestino? || t.ItemTratamentos?
    || t.ItemTratamentosOrgaos? || t.ItemNotasRemessa? || t.ItemNfExportacao?
  }

  /** Item tables filled from an item's complementary lists. */
  predicate ItemTail(t: Table)
  {
    t.ItemNotasComplementares? || t.ItemAtributos? || t.ItemDocumentosImportacao?
    || t.ItemDocumentosTransformacao? || t.ItemCalculoTratamentos? || t.ItemCalculoQuadros?
  }

  /** The tables filled while walking the items. */
  predicate ItemTable(t: Table)
  {
    ItemHead(t) || ItemTail(t)
  }

  /** DUE-level tables filled after the items: cargo, requests and the tax declaration. */
  predicate DeclarationTable(t: Table)
  {
    t.SituacoesCarga? || t.Solicitacoes? || t.Compensacoes? || t.Recolhimentos? || t.Contestacoes?
  }

  /** Tables filled from the lists fetched beside the payload. */
  predicate ExtraTable(t: Table)
  {
    t.AtosSuspensao? || t.AtosIsencao? || t.ExigenciasFiscais?
  }

  /**
   * The generated ids: an item's is the DUE number and the item number, a
   * treatment's is its item's id and its position; `Text` spells them out.
   */
  datatype Key = ItemKey(numeroDue: string, numero: int) | TratamentoKey(item: Key, idx: nat)
  {
    function Text(): string
    {
      match this
      case ItemKey(d, n) => d + "_" + IntToString(n)
      case TratamentoKey(k, i) => k.Text() + "_" + NatToString(i)
    }
  }

  /** A produced row: the structural columns, and the source element it copies. */
  datatype Row = Row(numeroDue: string, id: Option<Key>, dueItemId: Option<Key>,
                     tratamentoId: Option<Key>, itemNumero: Option<int>, indice: Option<int>, src: Value)

  type Tables = map<Table, seq<Row>>

  /** A table map with a list for every table. */
  predicate Complete(m: Tables)
  {
    forall t :: t in m
  }

  /** An item's number, 0 when the payload has none. */
  function ItemNumber(it: Item): int
  {
    if it.numero.Some? then it.numero.value else 0
  }

  function ItemId(numeroDue: string, it: Item): Key
  {
    ItemKey(numeroDue, ItemNumber(it))
  }

  function TratamentoId(itemId: Key, idx: nat): Key
  {
    TratamentoKey(itemId, idx)
  }

  /** `indice` of the `i`-th element of a list the source enumerates. */
  function Indice(indexed: bool, i: nat): Option<int>
  {
    if indexed then Some(i) else None
  }

  /**
   * One row per element of `xs`, in order, each carrying the given parent
   * columns and, when the source enumerates the list, the element's index.
   */
  function Stamp(numeroDue: string, dueItemId: Option<Key>, tratamentoId: Option<Key>,
                 itemNumero: Option<int>, xs: seq<Value>, indexed: bool): (r: seq<Row>)
    ensures |r| == |xs|
  {
    if xs == [] then []
    else Stamp(numeroDue, dueItemId, tratamentoId, itemNumero, xs[..|xs| - 1], indexed)
         + [Row(numeroDue, None, dueItemId, tratamentoId, itemNumero, Indice(indexed, |xs| - 1), xs[|xs| - 1])]
  }

  /** The `i`-th stamped row copies the `i`-th element and carries the parent columns. */
  lemma {:induction false} StampAt(numeroDue: string, dueItemId: Option<Key>, tratamentoId: Option<Key>,
                                   itemNumero: Option<int>, xs: seq<Value>, indexed: bool, i: nat)
    requires i < |xs|
    ensures Stamp(numeroDue, dueItemId, tratamentoId, itemNumero, xs, indexed)[i]
         == Row(numeroDue, None, dueItemId, tratamentoId, itemNumero, Indice(indexed, i), xs[i])
    decreases |xs|
  {
    if i < |xs| - 1 {
      StampAt(numeroDue, dueItemId, tratamentoId, itemNumero, xs[..|xs| - 1], indexed, i);
    }
  }

  /** Rows of a DUE-level list. */
  function DueRows(numeroDue: string, xs: seq<Value>, indexed: bool): seq<Row>
  {
    Stamp(numeroDue, None, None, None, xs, indexed)
  }

  /** Rows of one of an item's lists, linked to the item. */
  function ChildRows(numeroDue: string, it: Item, xs: seq<Value>, indexed: bool): seq<Row>
  {
    Stamp(numeroDue, Some(ItemId(numeroDue, it)), None, Some(ItemNumber(it)), xs, indexed)
  }

  /** The treatment rows of an item's first treatments: each has its own id and links to the item. */
  function TratamentoRows(numeroDue: string, itemId: Key, itemNumero: int, trs: seq<Tratamento>): (r: seq<Row>)
    ensures |r| == |trs|
  {
    if trs == [] then []
    else TratamentoRows(numeroDue, itemId, itemNumero, trs[..|trs| - 1])
         + [Row(numeroDue, Some(TratamentoId(itemId, |trs| - 1)), Some(itemId), None, Some(itemNumero), None,
                trs[|trs| - 1].src)]
  }

  /** The `k`-th treatment row has the treatment's own id and links to the item. */
  lemma {:induction false} TratamentoAt(numeroDue: string, itemId: Key, itemNumero: int, trs: seq<Tratamento>, k: nat)
    requires k < |trs|
    ensures TratamentoRows(numeroDue, itemId, itemNumero, trs)[k]
         == Row(numeroDue, Some(TratamentoId(itemId, k)), Some(itemId), None, Some(itemNumero), None, trs[k].src)
    decreases |trs|
  {
    if k < |trs| - 1 {
      TratamentoAt(numeroDue, itemId, itemNumero, trs[..|trs| - 1], k);
    }
  }

  /** The agency rows of an item's first treatments, each linked to its treatment and its item. */
  function OrgaoRows(numeroDue: string, itemId: Key, trs: seq<Tratamento>): seq<Row>
  {
    if trs == [] then []
    else OrgaoRows(numeroDue, itemId, trs[..|trs| - 1])
         + Stamp(numeroDue, Some(itemId), Some(TratamentoId(itemId, |trs| - 1)), None, trs[|trs| - 1].orgaos, false)
  }

  /** The export invoice row of an item, when the item has a non-empty one. */
  function NfExportacaoRows(numeroDue: string, it: Item): seq<Row>
  {
    if TruthyValue(it.nfExportacao)
    then [Row(numeroDue, None, Some(ItemId(numeroDue, it)), None, Some(ItemNumber(it)), None, it.nfExportacao)]
    else []
  }

  /** The rows one item contributes to each item table. */
  datatype ItemLists = ItemLists(
    itens: seq<Row>, enquadramentos: seq<Row>, paisesDestino: seq<Row>, tratamentos: seq<Row>,
    orgaos: seq<Row>, notasRemessa: seq<Row>, nfExportacao: seq<Row>, notasComplementares: seq<Row>,
    atributos: seq<Row>, documentosImportacao: seq<Row>, documentosTransformacao: seq<Row>,
    calculoTratamentos: seq<Row>, calculoQuadros: seq<Row>)
  {
    /** The list for table `t`; empty for a table that is not an item table. */
    function Of(t: Table): seq<Row>
    {
      match t
      case Itens => itens
      case ItemEnquadramentos => enquadramentos
      case ItemPaisesDestino => paisesDestino
      case ItemTratamentos => tratamentos
      case ItemTratamentosOrgaos => orgaos
      case ItemNotasRemessa => notasRemessa
      case ItemNfExportacao => nfExportacao
      case ItemNotasComplementares => notasComplementares
      case ItemAtributos => atributos
      case ItemDocumentosImportacao => documentosImportacao
      case ItemDocumentosTransformacao => documentosTransformacao
      case ItemCalculoTratamentos => calculoTratamentos
      case ItemCalculoQuadros => calculoQuadros
      case _ => []
    }
  }

  function Contribution(numeroDue: string, it: Item): ItemLists
  {
    var id := ItemId(numeroDue, it);
    ItemLists(
      [Row(numeroDue, Some(id), None, None, Some(ItemNumber(it)), None, it.src)],
      ChildRows(numeroDue, it, it.enquadramentos, false),
      ChildRows(numeroDue, it, it.paisesDestino, false),
      TratamentoRows(numeroDue, id, ItemNumber(it), it.tratamentos),
      OrgaoRows(numeroDue, id, it.tratamentos),
      ChildRows(numeroDue, it, it.notasRemessa, false),
      NfExportacaoRows(numeroDue, it),
      ChildRows(numeroDue, it, it.notasComplementares, true),
      ChildRows(numeroDue, it, it.atributos, true),
      ChildRows(numeroDue, it, it.documentosImportacao, true),
      ChildRows(numeroDue, it, it.documentosTransformacao, true),
      ChildRows(numeroDue, it, it.calculoTratamentos, true),
      ChildRows(numeroDue, it, it.calculoQuadros, true))
  }

  /** The rows one item contributes to table `t`. */
  function ItemRows(numeroDue: string, it: Item, t: Table): seq<Row>
  {
    Contribution(numeroDue, it).Of(t)
  }

  /** The rows of the first items, for an item table, in item order. */
  function PerItem(numeroDue: string, items: seq<Item>, t: Table): seq<Row>
  {
    if items == [] then []
    else PerItem(numeroDue, items[..|items| - 1], t) + ItemRows(numeroDue, items[|items| - 1], t)
  }

  /** An extra list that is absent or not a list contributes nothing. */
  function ListOrEmpty(xs: Option<seq<Value>>): seq<Value>
  {
    if xs.Some? then xs.value else []
  }

  /** The extra lists fetched beside the payload (suspension acts, exemption acts, fiscal requirements). */
  datatype Extras = Extras(suspensao: Option<seq<Value>>, isencao: Option<seq<Value>>, exigencias: Option<seq<Value>>)

  /** The list for table `t` once the whole payload is walked. */
  function TableRows(d: Due, ex: Extras, t: Table): seq<Row>
  {
    match t
    case DuePrincipal => [Row(d.numero, None, None, None, None, None, d.src)]
    case EventosHistorico => DueRows(d.numero, d.eventos, false)
    case SituacoesCarga => DueRows(d.numero, d.situacoesCarga, false)
    case Solicitacoes => DueRows(d.numero, d.solicitacoes, false)
    case Compensacoes => DueRows(d.numero, d.compensacoes, false)
    case Recolhimentos => DueRows(d.numero, d.recolhimentos, false)
    case Contestacoes => DueRows(d.numero, d.contestacoes, true)
    case AtosSuspensao => DueRows(d.numero, ListOrEmpty(ex.suspensao), false)
    case AtosIsencao => DueRows(d.numero, ListOrEmpty(ex.isencao), false)
    case ExigenciasFiscais => DueRows(d.numero, ListOrEmpty(ex.exigencias), false)
    case _ => PerItem(d.numero, d.itens, t)
  }

  /** The normalised tables with every list initialised: `None` for an invalid payload. */
  function Normalized(payload: Option<Due>, ex: Extras): (r: Option<Tables>)
    ensures r.Some? <==> payload.Some? && payload.value.numero != ""
    ensures r.Some? ==> Complete(r.value)
  {
    if payload.None? || payload.value.numero == "" then None
    else
      AllTablesListed();
      Some(map t | t in AllTables :: TableRows(payload.value, ex, t))
  }

  // ---- As written: the two lists for exemption acts and fiscal requirements are never created. ----

  datatype Outcome = Invalid | KeyError | Done(tables: Tables)

  /**
   * The source as written: appending an exemption act or a fiscal requirement
   * to a key that was never initialised raises KeyError.
   */
  function NormalizedAsWritten(payload: Option<Due>, ex: Extras): (r: Outcome)
    ensures r.Invalid? <==> payload.None? || payload.value.numero == ""
    ensures r.Done? ==> forall t :: t in r.tables <==> Initialised(t)
  {
    if payload.None? || payload.value.numero == "" then Invalid
    else if ListOrEmpty(ex.isencao) != [] || ListOrEmpty(ex.exigencias) != [] then KeyError
    else
      AllTablesListed();
      Done(map t | t in AllTables && Initialised(t) :: TableRows(payload.value, ex, t))
  }

  /** Without exemption acts or fiscal requirements the two agree on the 21 keys. */
  lemma AsWrittenAgreesWithoutExtras(payload: Option<Due>, ex: Extras)
    requires ListOrEmpty(ex.isencao) == [] && ListOrEmpty(ex.exigencias) == []
    ensures NormalizedAsWritten(payload, ex).Invalid? <==> Normalized(payload, ex).None?
    ensures NormalizedAsWritten(payload, ex).Done? ==>
      forall t :: Initialised(t) ==> NormalizedAsWritten(payload, ex).tables[t] == Normalized(payload, ex).value[t]
  {
  }

  /** One fiscal requirement is enough for the code as written to raise. */
  lemma OneExigenciaRaises(d: Due, e: Value)
    requires d.numero != ""
    ensures NormalizedAsWritten(Some(d), Extras(None, None, Some([e]))).KeyError?
  {
    assert ListOrEmpty(Some([e])) != [];
  }

  /** Corrected: every exemption act and fiscal requirement becomes one row of its table, in order. */
  lemma ExtrasBecomeRows(d: Due, ex: Extras)
    requires d.numero != ""
    ensures Normalized(Some(d), ex).Some?
    ensures Normalized(Some(d), ex).value[AtosIsencao] == DueRows(d.numero, ListOrEmpty(ex.isencao), false)
    ensures Normalized(Some(d), ex).value[ExigenciasFiscais] == DueRows(d.numero, ListOrEmpty(ex.exigencias), false)
  {
    NormalizedEntry(Some(d), ex, AtosIsencao);
    NormalizedEntry(Some(d), ex, ExigenciasFiscais);
    ExtraTableRows(d, ex);
  }

  lemma ExtraTableRows(d: Due, ex: Extras)
    ensures TableRows(d, ex, AtosIsencao) == DueRows(d.numero, ListOrEmpty(ex.isencao), false)
    ensures TableRows(d, ex, ExigenciasFiscais) == DueRows(d.numero, ListOrEmpty(ex.exigencias), false)
  {
  }

  /** Each table's list is what walking the payload gives. */
  lemma NormalizedEntry(payload: Option<Due>, ex: Extras, t: Table)
    requires payload.Some? && payload.value.numero != ""
    ensures Normalized(payload, ex).value[t] == TableRows(payload.value, ex, t)
  {
    AllTablesListed();
  }

  // ---- The walk itself: lists appended to as the payload is traversed. ----

  /** Appends one row per element of `xs` to `acc`. */
  method EmitEach(numeroDue: string, dueItemId: Option<Key>, tratamentoId: Option<Key>,
                  itemNumero: Option<int>, xs: seq<Value>, indexed: bool, acc: seq<Row>) returns (rows: seq<Row>)
    ensures rows == acc + Stamp(numeroDue, dueItemId, tratamentoId, itemNumero, xs, indexed)
  {
    rows := acc;
    var k := 0;
    while k < |xs|
      invariant 0 <= k <= |xs|
      invariant rows == acc + Stamp(numeroDue, dueItemId, tratamentoId, itemNumero, xs[..k], indexed)
    {
      rows := rows + [Row(numeroDue, None, dueItemId, tratamentoId, itemNumero, Indice(indexed, k), xs[k])];
      StampStep(numeroDue, dueItemId, tratamentoId, itemNumero, xs, indexed, k);
      k := k + 1;
    }
    assert xs[..k] == xs;
  }

  /** Appends an item's treatment rows and, after each treatment, its agency rows. */
  method EmitTratamentos(numeroDue: string, itemId: Key, itemNumero: int, trs: seq<Tratamento>,
                         trAcc: seq<Row>, orgAcc: seq<Row>) returns (trRows: seq<Row>, orgRows: seq<Row>)
    ensures trRows == trAcc + TratamentoRows(numeroDue, itemId, itemNumero, trs)
    ensures orgRows == orgAcc + OrgaoRows(numeroDue, itemId, trs)
  {
    trRows, orgRows := trAcc, orgAcc;
    var k := 0;
    while k < |trs|
      invariant 0 <= k <= |trs|
      invariant trRows == trAcc + TratamentoRows(numeroDue, itemId, itemNumero, trs[..k])
      invariant orgRows == orgAcc + OrgaoRows(numeroDue, itemId, trs[..k])
    {
      var tratId := TratamentoId(itemId, k);
      var tratRow := Row(numeroDue, Some(tratId), Some(itemId), None, Some(itemNumero), None, trs[k].src);
      TratamentoStep(numeroDue, itemId, itemNumero, trs, k);
      Associative(trAcc, TratamentoRows(numeroDue, itemId, itemNumero, trs[..k]), [tratRow]);
      trRows := trRows + [tratRow];
      var orgaoRows := Stamp(numeroDue, Some(itemId), Some(tratId), None, trs[k].orgaos, false);
      Associative(orgAcc, OrgaoRows(numeroDue, itemId, trs[..k]), orgaoRows);
      orgRows := EmitEach(numeroDue, Some(itemId), Some(tratId), None, trs[k].orgaos, false, orgRows);
      k := k + 1;
    }
    assert trs[..k] == trs;
  }

  lemma Associative(a: seq<Row>, b: seq<Row>, c: seq<Row>)
    ensures a + b + c == a + (b + c)
  {
  }

  lemma StampStep(numeroDue: string, dueItemId: Option<Key>, tratamentoId: Option<Key>,
                  itemNumero: Option<int>, xs: seq<Value>, indexed: bool, k: nat)
    requires k < |xs|
    ensures Stamp(numeroDue, dueItemId, tratamentoId, itemNumero, xs[..k + 1], indexed)
         == Stamp(numeroDue, dueItemId, tratamentoId, itemNumero, xs[..k], indexed)
            + [Row(numeroDue, None, dueItemId, tratamentoId, itemNumero, Indice(indexed, k), xs[k])]
  {
    assert xs[..k + 1][..k] == xs[..k];
  }

  lemma TratamentoStep(numeroDue: string, itemId: Key, itemNumero: int, trs: seq<Tratamento>, k: nat)
    requires k < |trs|
    ensures TratamentoRows(numeroDue, itemId, itemNumero, trs[..k + 1])
         == TratamentoRows(numeroDue, itemId, itemNumero, trs[..k])
            + [Row(numeroDue, Some(TratamentoId(itemId, k)), Some(itemId), None, Some(itemNumero), None, trs[k].src)]
    ensures OrgaoRows(numeroDue, itemId, trs[..k + 1])
         == OrgaoRows(numeroDue, itemId, trs[..k])
            + Stamp(numeroDue, Some(itemId), Some(TratamentoId(itemId, k)), None, trs[k].orgaos, false)
  {
    assert trs[..k + 1][..k] == trs[..k];
  }

  /** `acc` with each item table's list extended by the matching list of `c`. */
  function AddItem(acc: Tables, c: ItemLists): Tables
    requires Complete(acc)
  {
    acc[Itens := acc[Itens] + c.itens]
       [ItemEnquadramentos := acc[ItemEnquadramentos] + c.enquadramentos]
       [ItemPaisesDestino := acc[ItemPaisesDestino] + c.paisesDestino]
       [ItemTratamentos := acc[ItemTratamentos] + c.tratamentos]
       [ItemTratamentosOrgaos := acc[ItemTratamentosOrgaos] + c.orgaos]
       [ItemNotasRemessa := acc[ItemNotasRemessa] + c.notasRemessa]
       [ItemNfExportacao := acc[ItemNfExportacao] + c.nfExportacao]
       [ItemNotasComplementares := acc[ItemNotasComplementares] + c.notasComplementares]
       [ItemAtributos := acc[ItemAtributos] + c.atributos]
       [ItemDocumentosImportacao := acc[ItemDocumentosImportacao] + c.documentosImportacao]
       [ItemDocumentosTransformacao := acc[ItemDocumentosTransformacao] + c.documentosTransformacao]
       [ItemCalculoTratamentos := acc[ItemCalculoTratamentos] + c.calculoTratamentos]
       [ItemCalculoQuadros := acc[ItemCalculoQuadros] + c.calculoQuadros]
  }

  lemma AddItemAt(acc: Tables, c: ItemLists)
    requires Complete(acc)
    ensures Complete(AddItem(acc, c))
    ensures forall t :: AddItem(acc, c)[t] == acc[t] + c.Of(t)
    ensures forall t :: !ItemTable(t) ==> AddItem(acc, c)[t] == acc[t]
  {
    forall t
      ensures AddItem(acc, c)[t] == acc[t] + c.Of(t)
    {
      if !ItemTable(t) {
        assert acc[t] + [] == acc[t];
      }
    }
  }

  /** Appends everything one item contributes, table by table, in the source's order. */
  method EmitItem(acc: Tables, numeroDue: string, it: Item) returns (r: Tables)
    requires Complete(acc)
    ensures r == AddItem(acc, Contribution(numeroDue, it))
  {
    var id := ItemId(numeroDue, it);
    var n := ItemNumber(it);
    var itens := acc[Itens] + [Row(numeroDue, Some(id), None, None, Some(n), None, it.src)];
    var enquadramentos := EmitEach(numeroDue, Some(id), None, Some(n), it.enquadramentos, false, acc[ItemEnquadramentos]);
    var paises := EmitEach(numeroDue, Some(id), None, Some(n), it.paisesDestino, false, acc[ItemPaisesDestino]);
    var tratamentos, orgaos := EmitTratamentos(numeroDue, id, n, it.tratamentos, acc[ItemTratamentos], acc[ItemTratamentosOrgaos]);
    var remessa := EmitEach(numeroDue, Some(id), None, Some(n), it.notasRemessa, false, acc[ItemNotasRemessa]);
    var nf := acc[ItemNfExportacao];
    if TruthyValue(it.nfExportacao) {
      nf := nf + [Row(numeroDue, None, Some(id), None, Some(n), None, it.nfExportacao)];
    } else {
      assert nf == nf + [];
    }
    var complementares := EmitEach(numeroDue, Some(id), None, Some(n), it.notasComplementares, true, acc[ItemNotasComplementares]);
    var atributos := EmitEach(numeroDue, Some(id), None, Some(n), it.atributos, true, acc[ItemAtributos]);
    var importacao := EmitEach(numeroDue, Some(id), None, Some(n), it.documentosImportacao, true, acc[ItemDocumentosImportacao]);
    var transformacao := EmitEach(numeroDue, Some(id), None, Some(n), it.documentosTransformacao, true, acc[ItemDocumentosTransformacao]);
    var calcTratamentos := EmitEach(numeroDue, Some(id), None, Some(n), it.calculoTratamentos, true, acc[ItemCalculoTratamentos]);
    var calcQuadros := EmitEach(numeroDue, Some(id), None, Some(n), it.calculoQuadros, true, acc[ItemCalculoQuadros]);
    r := acc[Itens := itens][ItemEnquadramentos := enquadramentos][ItemPaisesDestino := paises]
            [ItemTratamentos := tratamentos][ItemTratamentosOrgaos := orgaos][ItemNotasRemessa := remessa]
            [ItemNfExportacao := nf][ItemNotasComplementares := complementares][ItemAtributos := atributos]
            [ItemDocumentosImportacao := importacao][ItemDocumentosTransformacao := transformacao]
            [ItemCalculoTratamentos := calcTratamentos][ItemCalculoQuadros := calcQuadros];
  }

  /** The cargo situations, requests and tax-declaration lists. */
  method EmitDeclaration(acc: Tables, d: Due) returns (r: Tables)
    requires Complete(acc)
    ensures Complete(r)
    ensures r[SituacoesCarga] == acc[SituacoesCarga] + DueRows(d.numero, d.situacoesCarga, false)
    ensures r[Solicitacoes] == acc[Solicitacoes] + DueRows(d.numero, d.solicitacoes, false)
    ensures r[Compensacoes] == acc[Compensacoes] + DueRows(d.numero, d.compensacoes, false)
    ensures r[Recolhimentos] == acc[Recolhimentos] + DueRows(d.numero, d.recolhimentos, false)
    ensures r[Contestacoes] == acc[Contestacoes] + DueRows(d.numero, d.contestacoes, true)
    ensures forall t :: !DeclarationTable(t) ==> r[t] == acc[t]
  {
    var situacoes := EmitEach(d.numero, None, None, None, d.situacoesCarga, false, acc[SituacoesCarga]);
    var solicitacoes := EmitEach(d.numero, None, None, None, d.solicitacoes, false, acc[Solicitacoes]);
    var compensacoes := EmitEach(d.numero, None, None, None, d.compensacoes, false, acc[Compensacoes]);
    var recolhimentos := EmitEach(d.numero, None, None, None, d.recolhimentos, false, acc[Recolhimentos]);
    var contestacoes := EmitEach(d.numero, None, None, None, d.contestacoes, true, acc[Contestacoes]);
    r := acc[SituacoesCarga := situacoes][Solicitacoes := solicitacoes][Compensacoes := compensacoes]
            [Recolhimentos := recolhimentos][Contestacoes := contestacoes];
  }

  /** The suspension acts, exemption acts and fiscal requirements, each only when given as a list. */
  method EmitExtras(acc: Tables, numeroDue: string, ex: Extras) returns (r: Tables)
    requires Complete(acc)
    ensures Complete(r)
    ensures r[AtosSuspensao] == acc[AtosSuspensao] + DueRows(numeroDue, ListOrEmpty(ex.suspensao), false)
    ensures r[AtosIsencao] == acc[AtosIsencao] + DueRows(numeroDue, ListOrEmpty(ex.isencao), false)
    ensures r[ExigenciasFiscais] == acc[ExigenciasFiscais] + DueRows(numeroDue, ListOrEmpty(ex.exigencias), false)
    ensures forall t :: !ExtraTable(t) ==> r[t] == acc[t]
  {
    r := acc;
    if ex.suspensao.Some? {
      var rows := EmitEach(numeroDue, None, None, None, ex.suspensao.value, false, r[AtosSuspensao]);
      r := r[AtosSuspensao := rows];
    } else {
      assert r[AtosSuspensao] + [] == r[AtosSuspensao];
    }
    if ex.isencao.Some? {
      var rows := EmitEach(numeroDue, None, None, None, ex.isencao.value, false, r[AtosIsencao]);
      r := r[AtosIsencao := rows];
    } else {
      assert r[AtosIsencao] + [] == r[AtosIsencao];
    }
    if ex.exigencias.Some? {
      var rows := EmitEach(numeroDue, None, None, None, ex.exigencias.value, false, r[ExigenciasFiscais]);
      r := r[ExigenciasFiscais := rows];
    } else {
      assert r[ExigenciasFiscais] + [] == r[ExigenciasFiscais];
    }
  }

  lemma PerItemStep(numeroDue: string, items: seq<Item>, i: nat)
    requires i < |items|
    ensures forall t :: PerItem(numeroDue, items[..i + 1], t) == PerItem(numeroDue, items[..i], t) + ItemRows(numeroDue, items[i], t)
  {
    assert items[..i + 1][..i] == items[..i];
  }

  /** Walks the items in order, appending each one's rows. */
  method EmitItems(acc: Tables, numeroDue: string, items: seq<Item>) returns (r: Tables)
    requires Complete(acc)
    requires forall t :: ItemTable(t) ==> acc[t] == []
    ensures Complete(r)
    ensures forall t :: ItemTable(t) ==> r[t] == PerItem(numeroDue, items, t)
    ensures forall t :: !ItemTable(t) ==> r[t] == acc[t]
  {
    r := acc;
    var i := 0;
    while i < |items|
      invariant 0 <= i <= |items|
      invariant Complete(r)
      invariant forall t :: ItemTable(t) ==> r[t] == PerItem(numeroDue, items[..i], t)
      invariant forall t :: !ItemTable(t) ==> r[t] == acc[t]
    {
      var before := r;
      r := EmitItem(r, numeroDue, items[i]);
      AddItemAt(before, Contribution(numeroDue, items[i]));
      PerItemStep(numeroDue, items, i);
      i := i + 1;
    }
    assert items[..i] == items;
  }

  lemma EmptyPrefix(xs: seq<Row>)
    ensures [] + xs == xs
  {
  }

  /** A table that is not an item table is one of the ten the DUE fills itself. */
  lemma NotItemTable(t: Table)
    requires !ItemTable(t)
    ensures t == DuePrincipal || t == EventosHistorico || t == SituacoesCarga || t == Solicitacoes
         || t == Compensacoes || t == Recolhimentos || t == Contestacoes || t == AtosSuspensao
         || t == AtosIsencao || t == ExigenciasFiscais
  {
  }

  lemma TableRowsOfItemTable(d: Due, ex: Extras, t: Table)
    requires ItemTable(t)
    ensures TableRows(d, ex, t) == PerItem(d.numero, d.itens, t)
  {
  }

  /** The declaration and extra stages leave the item tables alone. */
  lemma ItemTablesKept(t2: Tables, t3: Tables, t4: Tables)
    requires Complete(t2) && Complete(t3) && Complete(t4)
    requires forall t :: !DeclarationTable(t) ==> t3[t] == t2[t]
    requires forall t :: !ExtraTable(t) ==> t4[t] == t3[t]
    ensures forall t :: ItemTable(t) ==> t4[t] == t2[t]
  {
  }

  lemma AssembledDue(d: Due, ex: Extras, t1: Tables, t2: Tables, t3: Tables, t4: Tables)
    requires Complete(t1) && Complete(t2) && Complete(t3) && Complete(t4)
    requires t1[DuePrincipal] == [Row(d.numero, None, None, None, None, None, d.src)]
    requires t1[EventosHistorico] == DueRows(d.numero, d.eventos, false)
    requires forall t: Table :: !t.DuePrincipal? && !t.EventosHistorico? ==> t1[t] == []
    requires forall t :: !ItemTable(t) ==> t2[t] == t1[t]
    requires t3[SituacoesCarga] == t2[SituacoesCarga] + DueRows(d.numero, d.situacoesCarga, false)
    requires t3[Solicitacoes] == t2[Solicitacoes] + DueRows(d.numero, d.solicitacoes, false)
    requires t3[Compensacoes] == t2[Compensacoes] + DueRows(d.numero, d.compensacoes, false)
    requires t3[Recolhimentos] == t2[Recolhimentos] + DueRows(d.numero, d.recolhimentos, false)
    requires t3[Contestacoes] == t2[Contestacoes] + DueRows(d.numero, d.contestacoes, true)
    requires forall t :: !DeclarationTable(t) ==> t3[t] == t2[t]
    requires t4[AtosSuspensao] == t3[AtosSuspensao] + DueRows(d.numero, ListOrEmpty(ex.suspensao), false)
    requires t4[AtosIsencao] == t3[AtosIsencao] + DueRows(d.numero, ListOrEmpty(ex.isencao), false)
    requires t4[ExigenciasFiscais] == t3[ExigenciasFiscais] + DueRows(d.numero, ListOrEmpty(ex.exigencias), false)
    requires forall t :: !ExtraTable(t) ==> t4[t] == t3[t]
    ensures forall t :: !ItemTable(t) ==> t4[t] == TableRows(d, ex, t)
  {
    forall t | !ItemTable(t)
      ensures t4[t] == TableRows(d, ex, t)
    {
      NotItemTable(t);
      if DeclarationTable(t) {
        assert t4[t] == t3[t];
        assert t2[t] == t1[t] == [];
        EmptyPrefix(TableRows(d, ex, t));
      } else if ExtraTable(t) {
        assert t3[t] == t2[t] == t1[t] == [];
        EmptyPrefix(TableRows(d, ex, t));
      } else {
        assert t.DuePrincipal? || t.EventosHistorico?;
        assert t4[t] == t3[t] == t2[t] == t1[t];
      }
    }
  }

  /** Tables agreeing with the walk on every key are the normalised tables. */
  lemma AssembledAll(d: Due, ex: Extras, t4: Tables)
    requires d.numero != ""
    requires Complete(t4)
    requires forall t :: ItemTable(t) ==> t4[t] == PerItem(d.numero, d.itens, t)
    requires forall t :: !ItemTable(t) ==> t4[t] == TableRows(d, ex, t)
    ensures Normalized(Some(d), ex) == Some(t4)
  {
    AllTablesListed();
    var expected := Normalized(Some(d), ex).value;
    forall t
      ensures t4[t] == expected[t]
    {
      NormalizedEntry(Some(d), ex, t);
      if ItemTable(t) {
        TableRowsOfItemTable(d, ex, t);
      }
    }
    assert t4 == expected;
  }

  /** The four stages of the walk, each as its emitter states it, compose to the normalised tables. */
  lemma Assembled(d: Due, ex: Extras, t1: Tables, t2: Tables, t3: Tables, t4: Tables)
    requires d.numero != ""
    requires Complete(t1)
    requires t1[DuePrincipal] == [Row(d.numero, None, None, None, None, None, d.src)]
    requires t1[EventosHistorico] == DueRows(d.numero, d.eventos, false)
    requires forall t: Table :: !t.DuePrincipal? && !t.EventosHistorico? ==> t1[t] == []
    requires Complete(t2)
    requires forall t :: ItemTable(t) ==> t2[t] == PerItem(d.numero, d.itens, t)
    requires forall t :: !ItemTable(t) ==> t2[t] == t1[t]
    requires Complete(t3)
    requires t3[SituacoesCarga] == t2[SituacoesCarga] + DueRows(d.numero, d.situacoesCarga, false)
    requires t3[Solicitacoes] == t2[Solicitacoes] + DueRows(d.numero, d.solicitacoes, false)
    requires t3[Compensacoes] == t2[Compensacoes] + DueRows(d.numero, d.compensacoes, false)
    requires t3[Recolhimentos] == t2[Recolhimentos] + DueRows(d.numero, d.recolhimentos, false)
    requires t3[Contestacoes] == t2[Contestacoes] + DueRows(d.numero, d.contestacoes, true)
    requires forall t :: !DeclarationTable(t) ==> t3[t] == t2[t]
    requires Complete(t4)
    requires t4[AtosSuspensao] == t3[AtosSuspensao] + DueRows(d.numero, ListOrEmpty(ex.suspensao), false)
    requires t4[AtosIsencao] == t3[AtosIsencao] + DueRows(d.numero, ListOrEmpty(ex.isencao), false)
    requires t4[ExigenciasFiscais] == t3[ExigenciasFiscais] + DueRows(d.numero, ListOrEmpty(ex.exigencias), false)
    requires forall t :: !ExtraTable(t) ==> t4[t] == t3[t]
    ensures Normalized(Some(d), ex) == Some(t4)
  {
    ItemTablesKept(t2, t3, t4);
    AssembledDue(d, ex, t1, t2, t3, t4);
    AssembledAll(d, ex, t4);
  }

  /** The walk: every list initialised, then the payload traversed in the source's order. */
  method Normalize(payload: Option<Due>, ex: Extras) returns (r: Option<Tables>)
    ensures r == Normalized(payload, ex)
  {
    if payload.None? || payload.value.numero == "" {
      return None;
    }
    var d := payload.value;
    var t1 := EmitDue(d);
    var t2 := EmitItems(t1, d.numero, d.itens);
    var t3 := EmitDeclaration(t2, d);
    var t4 := EmitExtras(t3, d.numero, ex);
    Assembled(d, ex, t1, t2, t3, t4);
    r := Some(t4);
  }

  /** Every list created empty; then the DUE's own row and its event history. */
  method EmitDue(d: Due) returns (r: Tables)
    ensures Complete(r)
    ensures r[DuePrincipal] == [Row(d.numero, None, None, None, None, None, d.src)]
    ensures r[EventosHistorico] == DueRows(d.numero, d.eventos, false)
    ensures forall t: Table :: !t.DuePrincipal? && !t.EventosHistorico? ==> r[t] == []
  {
    AllTablesListed();
    r := map t | t in AllTables :: [];
    r := r[DuePrincipal := r[DuePrincipal] + [Row(d.numero, None, None, None, None, None, d.src)]];
    var eventos := EmitEach(d.numero, None, None, None, d.eventos, false, r[EventosHistorico]);
    EmptyPrefix(DueRows(d.numero, d.eventos, false));
    r := r[EventosHistorico := eventos];
  }
}
