// Structural properties of the normalised tables: every row belongs to the
// DUE, item lists point at item rows, agency rows point at treatment rows,
// and there is exactly one item row per item.
module DueNormalizerProperties {
  import opened Wrappers
  import opened DueNormalizer

  /** Every stamped row carries the DUE number and the given parent columns. */
  lemma {:induction false} StampMember(numeroDue: string, dueItemId: Option<Key>, tratamentoId: Option<Key>,
                                       itemNumero: Option<int>, xs: seq<Value>, indexed: bool, r: Row)
    requires r in Stamp(numeroDue, dueItemId, tratamentoId, itemNumero, xs, indexed)
    ensures r.numeroDue == numeroDue && r.id.None?
    ensures r.dueItemId == dueItemId && r.tratamentoId == tratamentoId && r.itemNumero == itemNumero
    decreases |xs|
  {
    if xs != [] {
      var front := Stamp(numeroDue, dueItemId, tratamentoId, itemNumero, xs[..|xs| - 1], indexed);
      if r in front {
        StampMember(numeroDue, dueItemId, tratamentoId, itemNumero, xs[..|xs| - 1], indexed, r);
      }
    }
  }

  /** A treatment row links to its item and has the id of one of the item's treatments. */
  lemma {:induction false} TratamentoMember(numeroDue: string, itemId: Key, itemNumero: int,
                                            trs: seq<Tratamento>, r: Row)
    requires r in TratamentoRows(numeroDue, itemId, itemNumero, trs)
    ensures r.numeroDue == numeroDue && r.dueItemId == Some(itemId)
    ensures exists k :: 0 <= k < |trs| && r.id == Some(TratamentoId(itemId, k))
    decreases |trs|
  {
    if trs != [] {
      var front := TratamentoRows(numeroDue, itemId, itemNumero, trs[..|trs| - 1]);
      if r in front {
        TratamentoMember(numeroDue, itemId, itemNumero, trs[..|trs| - 1], r);
        var k :| 0 <= k < |trs| - 1 && r.id == Some(TratamentoId(itemId, k));
        assert 0 <= k < |trs| && r.id == Some(TratamentoId(itemId, k));
      } else {
        assert r.id == Some(TratamentoId(itemId, |trs| - 1));
      }
    }
  }

  /** An agency row links to its item and to one of the item's treatments. */
  lemma {:induction false} OrgaoMember(numeroDue: string, itemId: Key, trs: seq<Tratamento>, r: Row)
    requires r in OrgaoRows(numeroDue, itemId, trs)
    ensures r.numeroDue == numeroDue && r.dueItemId == Some(itemId)
    ensures exists k :: 0 <= k < |trs| && r.tratamentoId == Some(TratamentoId(itemId, k))
    decreases |trs|
  {
    if trs != [] {
      var front := OrgaoRows(numeroDue, itemId, trs[..|trs| - 1]);
      if r in front {
        OrgaoMember(numeroDue, itemId, trs[..|trs| - 1], r);
        var k :| 0 <= k < |trs| - 1 && r.tratamentoId == Some(TratamentoId(itemId, k));
        assert 0 <= k < |trs| && r.tratamentoId == Some(TratamentoId(itemId, k));
      } else {
        StampMember(numeroDue, Some(itemId), Some(TratamentoId(itemId, |trs| - 1)), None,
                    trs[|trs| - 1].orgaos, false, r);
      }
    }
  }

  /**
   * A row one item contributes belongs to the DUE; the item row has the
   * item's id and every other row links to it.
   */
  lemma ContributionMember(numeroDue: string, it: Item, t: Table, r: Row)
    requires r in ItemRows(numeroDue, it, t)
    ensures ItemTable(t)
    ensures r.numeroDue == numeroDue
    ensures t.Itens? ==> r.id == Some(ItemId(numeroDue, it))
    ensures !t.Itens? ==> r.dueItemId == Some(ItemId(numeroDue, it))
  {
    var c := Contribution(numeroDue, it);
    var id := ItemId(numeroDue, it);
    var n := Some(ItemNumber(it));
    match t
    case Itens =>
    case ItemEnquadramentos => StampMember(numeroDue, Some(id), None, n, it.enquadramentos, false, r);
    case ItemPaisesDestino => StampMember(numeroDue, Some(id), None, n, it.paisesDestino, false, r);
    case ItemTratamentos => TratamentoMember(numeroDue, id, ItemNumber(it), it.tratamentos, r);
    case ItemTratamentosOrgaos => OrgaoMember(numeroDue, id, it.tratamentos, r);
    case ItemNotasRemessa => StampMember(numeroDue, Some(id), None, n, it.notasRemessa, false, r);
    case ItemNfExportacao =>
    case ItemNotasComplementares => StampMember(numeroDue, Some(id), None, n, it.notasComplementares, true, r);
    case ItemAtributos => StampMember(numeroDue, Some(id), None, n, it.atributos, true, r);
    case ItemDocumentosImportacao => StampMember(numeroDue, Some(id), None, n, it.documentosImportacao, true, r);
    case ItemDocumentosTransformacao =>
      StampMember(numeroDue, Some(id), None, n, it.documentosTransformacao, true, r);
    case ItemCalculoTratamentos => StampMember(numeroDue, Some(id), None, n, it.calculoTratamentos, true, r);
    case ItemCalculoQuadros => StampMember(numeroDue, Some(id), None, n, it.calculoQuadros, true, r);
    case _ =>
  }

  /** A row of an item table comes from one of the items. */
  lemma {:induction false} PerItemMember(numeroDue: string, items: seq<Item>, t: Table, r: Row)
    requires r in PerItem(numeroDue, items, t)
    ensures exists k :: 0 <= k < |items| && r in ItemRows(numeroDue, items[k], t)
    decreases |items|
  {
    var front := items[..|items| - 1];
    var init, last := PerItem(numeroDue, front, t), ItemRows(numeroDue, items[|items| - 1], t);
    assert PerItem(numeroDue, items, t) == init + last;
    if r in init {
      PerItemMember(numeroDue, front, t, r);
      var k :| 0 <= k < |front| && r in ItemRows(numeroDue, front[k], t);
      assert items[k] == front[k];
      assert 0 <= k < |items| && r in ItemRows(numeroDue, items[k], t);
    } else {
      var k := |items| - 1;
      assert r in last;
      assert 0 <= k < |items| && r in ItemRows(numeroDue, items[k], t);
    }
  }

  /** Every row an item contributes is in its table. */
  lemma {:induction false} PerItemContains(numeroDue: string, items: seq<Item>, k: nat, t: Table, r: Row)
    requires k < |items|
    requires r in ItemRows(numeroDue, items[k], t)
    ensures r in PerItem(numeroDue, items, t)
    decreases |items|
  {
    var front := items[..|items| - 1];
    if k < |items| - 1 {
      assert front[k] == items[k];
      PerItemContains(numeroDue, front, k, t, r);
    }
  }

  /** The item table holds one row per item, with that item's id, in order. */
  lemma {:induction false} ItemRowPerItem(numeroDue: string, items: seq<Item>)
    ensures |PerItem(numeroDue, items, Itens)| == |items|
    ensures forall k :: 0 <= k < |items| ==>
              PerItem(numeroDue, items, Itens)[k].id == Some(ItemId(numeroDue, items[k]))
    decreases |items|
  {
    if items != [] {
      var front := items[..|items| - 1];
      ItemRowPerItem(numeroDue, front);
      assert forall k :: 0 <= k < |front| ==> front[k] == items[k];
    }
  }

  // ---- Properties of the normalised tables ----

  /** A row of a DUE-level list belongs to the DUE and links to no item or treatment. */
  lemma DueLevelMember(d: Due, ex: Extras, t: Table, r: Row)
    requires !ItemTable(t)
    requires r in TableRows(d, ex, t)
    ensures r.numeroDue == d.numero && r.dueItemId.None? && r.tratamentoId.None?
  {
    NotItemTable(t);
    match t
    case DuePrincipal =>
    case EventosHistorico => StampMember(d.numero, None, None, None, d.eventos, false, r);
    case SituacoesCarga => StampMember(d.numero, None, None, None, d.situacoesCarga, false, r);
    case Solicitacoes => StampMember(d.numero, None, None, None, d.solicitacoes, false, r);
    case Compensacoes => StampMember(d.numero, None, None, None, d.compensacoes, false, r);
    case Recolhimentos => StampMember(d.numero, None, None, None, d.recolhimentos, false, r);
    case Contestacoes => StampMember(d.numero, None, None, None, d.contestacoes, true, r);
    case AtosSuspensao => StampMember(d.numero, None, None, None, ListOrEmpty(ex.suspensao), false, r);
    case AtosIsencao => StampMember(d.numero, None, None, None, ListOrEmpty(ex.isencao), false, r);
    case ExigenciasFiscais => StampMember(d.numero, None, None, None, ListOrEmpty(ex.exigencias), false, r);
  }

  /** Every row of every table carries the DUE's number; DUE-level rows link to nothing. */
  lemma RowsBelongToDue(d: Due, ex: Extras, t: Table, r: Row)
    requires d.numero != ""
    requires r in Normalized(Some(d), ex).value[t]
    ensures r.numeroDue == d.numero
    ensures !ItemTable(t) ==> r.dueItemId.None? && r.tratamentoId.None?
  {
    NormalizedEntry(Some(d), ex, t);
    if ItemTable(t) {
      TableRowsOfItemTable(d, ex, t);
      PerItemMember(d.numero, d.itens, t, r);
      var k :| 0 <= k < |d.itens| && r in ItemRows(d.numero, d.itens[k], t);
      ContributionMember(d.numero, d.itens[k], t, r);
    } else {
      DueLevelMember(d, ex, t, r);
    }
  }

  /** The item list has exactly one row per payload item, carrying that item's id, in order. */
  lemma OneRowPerItem(d: Due, ex: Extras)
    requires d.numero != ""
    ensures |Normalized(Some(d), ex).value[Itens]| == |d.itens|
    ensures forall k :: 0 <= k < |d.itens| ==>
              Normalized(Some(d), ex).value[Itens][k].id == Some(ItemId(d.numero, d.itens[k]))
  {
    NormalizedEntry(Some(d), ex, Itens);
    TableRowsOfItemTable(d, ex, Itens);
    ItemRowPerItem(d.numero, d.itens);
  }

  /** Every row of an item's lists points at a row of the item list. */
  lemma ItemListsReferenceItems(d: Due, ex: Extras, t: Table, r: Row)
    requires d.numero != ""
    requires ItemTable(t) && !t.Itens?
    requires r in Normalized(Some(d), ex).value[t]
    ensures r.dueItemId.Some?
    ensures exists q :: q in Normalized(Some(d), ex).value[Itens] && q.id == r.dueItemId
  {
    var tables := Normalized(Some(d), ex).value;
    NormalizedEntry(Some(d), ex, t);
    TableRowsOfItemTable(d, ex, t);
    PerItemMember(d.numero, d.itens, t, r);
    var k :| 0 <= k < |d.itens| && r in ItemRows(d.numero, d.itens[k], t);
    ContributionMember(d.numero, d.itens[k], t, r);
    OneRowPerItem(d, ex);
    assert tables[Itens][k] in tables[Itens];
  }

  /** An agency row's treatment id is the id of one of its item's treatments. */
  lemma {:induction false} OrgaoTreatmentBelow(numeroDue: string, itemId: Key, itemNumero: int,
                                               trs: seq<Tratamento>, r: Row)
    requires r in OrgaoRows(numeroDue, itemId, trs)
    ensures exists q :: q in TratamentoRows(numeroDue, itemId, itemNumero, trs)
                        && q.id.Some? && q.id == r.tratamentoId && q.dueItemId == r.dueItemId
  {
    OrgaoMember(numeroDue, itemId, trs, r);
    var k :| 0 <= k < |trs| && r.tratamentoId == Some(TratamentoId(itemId, k));
    TratamentoAt(numeroDue, itemId, itemNumero, trs, k);
    assert TratamentoRows(numeroDue, itemId, itemNumero, trs)[k] in TratamentoRows(numeroDue, itemId, itemNumero, trs);
  }

  lemma TreatmentListsOfItem(numeroDue: string, it: Item)
    ensures ItemRows(numeroDue, it, ItemTratamentos)
         == TratamentoRows(numeroDue, ItemId(numeroDue, it), ItemNumber(it), it.tratamentos)
    ensures ItemRows(numeroDue, it, ItemTratamentosOrgaos) == OrgaoRows(numeroDue, ItemId(numeroDue, it), it.tratamentos)
  {
  }

  lemma PerItemOrgaosLinked(numeroDue: string, items: seq<Item>, r: Row)
    requires r in PerItem(numeroDue, items, ItemTratamentosOrgaos)
    ensures exists q :: q in PerItem(numeroDue, items, ItemTratamentos)
                        && q.id.Some? && q.id == r.tratamentoId && q.dueItemId == r.dueItemId
  {
    PerItemMember(numeroDue, items, ItemTratamentosOrgaos, r);
    var k :| 0 <= k < |items| && r in ItemRows(numeroDue, items[k], ItemTratamentosOrgaos);
    var it := items[k];
    var id := ItemId(numeroDue, it);
    TreatmentListsOfItem(numeroDue, it);
    OrgaoTreatmentBelow(numeroDue, id, ItemNumber(it), it.tratamentos, r);
    var q :| q in TratamentoRows(numeroDue, id, ItemNumber(it), it.tratamentos)
             && q.id.Some? && q.id == r.tratamentoId && q.dueItemId == r.dueItemId;
    PerItemContains(numeroDue, items, k, ItemTratamentos, q);
  }

  /** Every agency row points at a treatment row of the same item. */
  lemma OrgaosReferenceTratamentos(d: Due, ex: Extras, r: Row)
    requires d.numero != ""
    requires r in Normalized(Some(d), ex).value[ItemTratamentosOrgaos]
    ensures exists q :: q in Normalized(Some(d), ex).value[ItemTratamentos]
                        && q.id.Some? && q.id == r.tratamentoId && q.dueItemId == r.dueItemId
  {
    NormalizedEntry(Some(d), ex, ItemTratamentosOrgaos);
    NormalizedEntry(Some(d), ex, ItemTratamentos);
    TableRowsOfItemTable(d, ex, ItemTratamentosOrgaos);
    TableRowsOfItemTable(d, ex, ItemTratamentos);
    PerItemOrgaosLinked(d.numero, d.itens, r);
  }
}
