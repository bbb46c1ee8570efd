/** The sale use cases (GerenciamentoDeVendas/Application/Services/VendaService.cs)
    over the unit of work. Each loads the sale, changes it and the stock records
    step by step, and commits once at the end; an exception commits nothing. */
module VendaServiceOps {

  import opened Common
  import opened Text
  import opened ItemVendaEntity
  import opened VendaEntity
  import opened EstoqueEntity
  import opened ProdutoEntity
  import opened UnitOfWorkStore

  /** One requested line of `VendaCreateDTO.Itens` (an `ItemVendaCreateDTO`). */
  datatype ItemPedido = ItemPedido(produtoId: Guid, quantidade: int)

  /** Every product is stored under its own id. */
  predicate ProdutoKeys(produtos: map<Guid, ProdutoState>)
  {
    forall k :: k in produtos ==> produtos[k].id == k
  }

  // ---------------------------------------------------------------------------
  // Creating and editing a sale

  /** One turn of the loop of `CriarAsync`: the requested product must exist
      and be active, and is added with its current name and price. */
  function AddLine(v: VendaState, produtos: map<Guid, ProdutoState>, pedido: ItemPedido, id: Guid): (r: Result<VendaState>)
  {
    var pid := pedido.produtoId;
    if pid !in produtos then Err(InvalidOperation(ProductNotFound))
    else if !produtos[pid].ativo then Err(InvalidOperation(ProductInactive))
    else
      var p := produtos[pid];
      v.AdicionarItem(id, p.id, p.nome, pedido.quantidade, p.precoUnitario)
  }

  /** The loop of `CriarAsync`, stopping at the first failure. `ids[k]` is the
      `Guid.NewGuid()` of the line the k-th request would create. */
  function AddLines(v: VendaState, produtos: map<Guid, ProdutoState>, pedidos: seq<ItemPedido>,
                    ids: seq<Guid>): (r: Result<VendaState>)
    requires |ids| == |pedidos|
    decreases |pedidos|
  {
    if pedidos == [] then Ok(v)
    else
      var v1 :- AddLine(v, produtos, pedidos[0], ids[0]);
      AddLines(v1, produtos, pedidos[1..], ids[1..])
  }

  /** `CriarAsync(dto)`, with the sale's `Guid.NewGuid()` as `vendaId`. */
  function CriarSpec(st: Store, vendaId: Guid, now: Instant, clienteId: Guid, observacao: Option<string>,
                     pedidos: seq<ItemPedido>, ids: seq<Guid>): (r: Result<Store>)
    requires |ids| == |pedidos|
    ensures clienteId !in st.clientes ==> r == Err(InvalidOperation(ClientNotFound))
    ensures r.Ok? ==> r.value == st.(vendas := r.value.vendas)
  {
    if clienteId !in st.clientes then Err(InvalidOperation(ClientNotFound))
    else
      var v :- NovaVenda(vendaId, clienteId, now, observacao);
      var v1 :- AddLines(v, st.produtos, pedidos, ids);
      Ok(st.(vendas := st.vendas[vendaId := v1]))
  }

  /** `AdicionarItemAsync(vendaId, itemDto)`. */
  function AdicionarItemSpec(st: Store, vendaId: Guid, produtoId: Guid, quantidade: int,
                             novoItemId: Guid): (r: Result<Store>)
    ensures vendaId !in st.vendas ==> r == Err(InvalidOperation(SaleNotFound))
    ensures vendaId in st.vendas && produtoId !in st.produtos ==> r == Err(InvalidOperation(ProductNotFound))
    ensures (vendaId in st.vendas && produtoId in st.produtos && !st.produtos[produtoId].ativo) ==>
              r == Err(InvalidOperation(ProductInactive))
    ensures r.Ok? ==> r.value == st.(vendas := r.value.vendas)
  {
    if vendaId !in st.vendas then Err(InvalidOperation(SaleNotFound))
    else if produtoId !in st.produtos then Err(InvalidOperation(ProductNotFound))
    else if !st.produtos[produtoId].ativo then Err(InvalidOperation(ProductInactive))
    else
      var p := st.produtos[produtoId];
      var v1 :- st.vendas[vendaId].AdicionarItem(novoItemId, p.id, p.nome, quantidade, p.precoUnitario);
      Ok(st.(vendas := st.vendas[vendaId := v1]))
  }

  /** `RemoverItemAsync(vendaId, itemId)`. */
  function RemoverItemSpec(st: Store, vendaId: Guid, itemId: Guid): (r: Result<Store>)
    ensures vendaId !in st.vendas ==> r == Err(InvalidOperation(SaleNotFound))
    ensures vendaId in st.vendas ==>
              OutcomeOf(r) == OutcomeOf(st.vendas[vendaId].RemoverItem(itemId)) &&
              (r.Ok? ==> r.value == st.(vendas := st.vendas[vendaId := st.vendas[vendaId].RemoverItem(itemId).value]))
  {
    if vendaId !in st.vendas then Err(InvalidOperation(SaleNotFound))
    else
      var v1 :- st.vendas[vendaId].RemoverItem(itemId);
      Ok(st.(vendas := st.vendas[vendaId := v1]))
  }

  /** `AtualizarQuantidadeItemAsync(vendaId, itemId, novaQuantidade)`. */
  function AtualizarQuantidadeItemSpec(st: Store, vendaId: Guid, itemId: Guid, n: int): (r: Result<Store>)
    ensures vendaId !in st.vendas ==> r == Err(InvalidOperation(SaleNotFound))
    ensures vendaId in st.vendas ==>
              OutcomeOf(r) == OutcomeOf(st.vendas[vendaId].AtualizarQuantidadeItem(itemId, n)) &&
              (r.Ok? ==> r.value == st.(vendas := st.vendas[vendaId :=
                                                     st.vendas[vendaId].AtualizarQuantidadeItem(itemId, n).value]))
  {
    if vendaId !in st.vendas then Err(InvalidOperation(SaleNotFound))
    else
      var v1 :- st.vendas[vendaId].AtualizarQuantidadeItem(itemId, n);
      Ok(st.(vendas := st.vendas[vendaId := v1]))
  }

  // ---------------------------------------------------------------------------
  // Confirming and cancelling

  /** One turn of the loop of `ConfirmarAsync`: the product's stock record must
      exist and hold enough, and is lowered by the line's quantity. */
  function BaixarLinha(rows: seq<EstoqueState>, line: ItemState, now: Instant): Result<seq<EstoqueState>>
  {
    match IndexOfEstoqueProduto(rows, line.produtoId)
    case None => Err(InvalidOperation(StockNotFound))
    case Some(j) =>
      if !rows[j].TemEstoqueDisponivel(line.quantidade) then Err(InvalidOperation(InsufficientStock))
      else
        var e :- rows[j].RemoverQuantidade(line.quantidade, now);
        Ok(rows[j := e])
  }

  /** The loop of `ConfirmarAsync`: the lines in order; the first failure stops it. */
  function BaixarEstoque(rows: seq<EstoqueState>, lines: seq<ItemState>, now: Instant): Result<seq<EstoqueState>>
    decreases |lines|
  {
    if lines == [] then Ok(rows)
    else
      var rows1 :- BaixarLinha(rows, lines[0], now);
      BaixarEstoque(rows1, lines[1..], now)
  }

  /** One turn of the loop of `CancelarAsync`: the line's quantity goes back to
      the product's stock record; without a record nothing happens. */
  function DevolverLinha(rows: seq<EstoqueState>, line: ItemState, now: Instant): Result<seq<EstoqueState>>
  {
    match IndexOfEstoqueProduto(rows, line.produtoId)
    case None => Ok(rows)
    case Some(j) =>
      var e :- rows[j].AdicionarQuantidade(line.quantidade, now);
      Ok(rows[j := e])
  }

  /** The loop of `CancelarAsync`. */
  function DevolverEstoque(rows: seq<EstoqueState>, lines: seq<ItemState>, now: Instant): Result<seq<EstoqueState>>
    decreases |lines|
  {
    if lines == [] then Ok(rows)
    else
      var rows1 :- DevolverLinha(rows, lines[0], now);
      DevolverEstoque(rows1, lines[1..], now)
  }

  /** `ConfirmarAsync(vendaId, dto)`: the stock is lowered before `Confirmar` runs,
      and either failure discards both. */
  function ConfirmarSpec(st: Store, vendaId: Guid, forma: FormaPagamento, now: Instant): (r: Result<Store>)
    ensures vendaId !in st.vendas ==> r == Err(InvalidOperation(SaleNotFound))
    ensures r.Ok? ==> r.value.clientes == st.clientes && r.value.produtos == st.produtos
  {
    if vendaId !in st.vendas then Err(InvalidOperation(SaleNotFound))
    else
      var v := st.vendas[vendaId];
      var rows :- BaixarEstoque(st.estoques, v.itens, now);
      var v1 :- v.Confirmar(forma);
      Ok(st.(estoques := rows, vendas := st.vendas[vendaId := v1]))
  }

  /** `CancelarAsync(vendaId)`: a confirmed sale gives its stock back first. */
  function CancelarSpec(st: Store, vendaId: Guid, now: Instant): (r: Result<Store>)
    ensures vendaId !in st.vendas ==> r == Err(InvalidOperation(SaleNotFound))
    ensures r.Ok? ==> r.value.clientes == st.clientes && r.value.produtos == st.produtos
  {
    if vendaId !in st.vendas then Err(InvalidOperation(SaleNotFound))
    else
      var v := st.vendas[vendaId];
      var rows :- if v.status == Confirmada then DevolverEstoque(st.estoques, v.itens, now) else Ok(st.estoques);
      var v1 :- v.Cancelar();
      Ok(st.(estoques := rows, vendas := st.vendas[vendaId := v1]))
  }

  // ---------------------------------------------------------------------------
  // What the stock loops do, in closed form

  /** The total quantity the lines ask of row `j`: the lines whose product's
      record is that row. */
  function Demand(rows: seq<EstoqueState>, lines: seq<ItemState>, j: nat): int
    decreases |lines|
  {
    if lines == [] then 0
    else (if IndexOfEstoqueProduto(rows, lines[0].produtoId) == Some(j) then lines[0].quantidade else 0) +
         Demand(rows, lines[1..], j)
  }

  predicate AllStocked(rows: seq<EstoqueState>, lines: seq<ItemState>)
  {
    forall i :: 0 <= i < |lines| ==> IndexOfEstoqueProduto(rows, lines[i].produtoId).Some?
  }

  predicate AllPositive(lines: seq<ItemState>)
  {
    forall i :: 0 <= i < |lines| ==> lines[i].quantidade > 0
  }

  /** Every row the lines ask something of holds at least that much. */
  predicate Covered(rows: seq<EstoqueState>, lines: seq<ItemState>)
  {
    forall j :: 0 <= j < |rows| && 0 < Demand(rows, lines, j) ==> Demand(rows, lines, j) <= rows[j].quantidade
  }

  /** `x` raised (`up`) or lowered by `d`. */
  function Moved(x: int, d: int, up: bool): int
  {
    if up then x + d else x - d
  }

  /** `out` is `rows` with each quantity raised (`up`) or lowered by its
      demand, and nothing else changed but the dates. */
  predicate Shifted(out: seq<EstoqueState>, rows: seq<EstoqueState>, lines: seq<ItemState>, up: bool)
  {
    && SameProducts(out, rows)
    && forall j :: 0 <= j < |rows| ==>
         && out[j].quantidade == Moved(rows[j].quantidade, Demand(rows, lines, j), up)
         && out[j].(quantidade := rows[j].quantidade, dataUltimaAtualizacao := rows[j].dataUltimaAtualizacao) == rows[j]
  }

  /** Two tables equal except for the dates of last change. */
  predicate SameExceptDates(a: seq<EstoqueState>, b: seq<EstoqueState>)
  {
    |a| == |b| && forall j :: 0 <= j < |a| ==> a[j].(dataUltimaAtualizacao := b[j].dataUltimaAtualizacao) == b[j]
  }

  lemma {:induction false} DemandStable(a: seq<EstoqueState>, b: seq<EstoqueState>, lines: seq<ItemState>, j: nat)
    requires SameProducts(a, b)
    ensures Demand(a, lines, j) == Demand(b, lines, j)
    decreases |lines|
  {
    if lines != [] {
      LookupStable(a, b, lines[0].produtoId);
      DemandStable(a, b, lines[1..], j);
    }
  }

  lemma {:induction false} DemandNonNegative(rows: seq<EstoqueState>, lines: seq<ItemState>, j: nat)
    requires AllPositive(lines)
    ensures Demand(rows, lines, j) >= 0
    decreases |lines|
  {
    if lines != [] {
      DemandNonNegative(rows, lines[1..], j);
    }
  }

  /** One step of either loop: row `j0` replaced by `e`, its quantity moved by
      the first line's, and the remaining lines shifting the new table. */
  lemma StepShift(rows: seq<EstoqueState>, e: EstoqueState, out: seq<EstoqueState>,
                  lines: seq<ItemState>, j0: nat, up: bool)
    requires lines != [] && j0 < |rows| && IndexOfEstoqueProduto(rows, lines[0].produtoId) == Some(j0)
    requires e.quantidade == Moved(rows[j0].quantidade, lines[0].quantidade, up)
    requires e.(quantidade := rows[j0].quantidade, dataUltimaAtualizacao := rows[j0].dataUltimaAtualizacao) == rows[j0]
    requires Shifted(out, rows[j0 := e], lines[1..], up)
    ensures Shifted(out, rows, lines, up)
  {
    var rows1 := rows[j0 := e];
    assert SameProducts(rows1, rows);
    forall j | 0 <= j < |rows|
      ensures out[j].quantidade == Moved(rows[j].quantidade, Demand(rows, lines, j), up)
      ensures out[j].(quantidade := rows[j].quantidade, dataUltimaAtualizacao := rows[j].dataUltimaAtualizacao) == rows[j]
    {
      DemandStable(rows1, rows, lines[1..], j);
      assert Demand(rows, lines, j) == (if j == j0 then lines[0].quantidade else 0) + Demand(rows, lines[1..], j);
      assert out[j].quantidade == Moved(rows1[j].quantidade, Demand(rows1, lines[1..], j), up);
    }
  }

  /** A confirmation's stock loop that succeeds found a record for every line,
      had only positive quantities, asked no row for more than it held, and
      lowered every row by exactly its demand. */
  lemma {:induction false} BaixarSucceeded(rows: seq<EstoqueState>, lines: seq<ItemState>, now: Instant)
    requires BaixarEstoque(rows, lines, now).Ok?
    ensures AllStocked(rows, lines) && AllPositive(lines) && Covered(rows, lines)
    ensures Shifted(BaixarEstoque(rows, lines, now).value, rows, lines, false)
    decreases |lines|
  {
    if lines != [] {
      var q := lines[0].quantidade;
      var j0 := IndexOfEstoqueProduto(rows, lines[0].produtoId).value;
      var e := rows[j0].RemoverQuantidade(q, now).value;
      var rows1 := rows[j0 := e];
      BaixarSucceeded(rows1, lines[1..], now);
      assert SameProducts(rows1, rows);
      forall i | 0 <= i < |lines|
        ensures IndexOfEstoqueProduto(rows, lines[i].produtoId).Some? && lines[i].quantidade > 0
      {
        if i > 0 {
          assert lines[i] == lines[1..][i - 1];
          LookupStable(rows1, rows, lines[i].produtoId);
        }
      }
      forall j | 0 <= j < |rows| && 0 < Demand(rows, lines, j)
        ensures Demand(rows, lines, j) <= rows[j].quantidade
      {
        DemandStable(rows1, rows, lines[1..], j);
        DemandNonNegative(rows, lines[1..], j);
        assert Demand(rows, lines, j) == (if j == j0 then q else 0) + Demand(rows, lines[1..], j);
        assert rows1[j].quantidade == (if j == j0 then rows[j].quantidade - q else rows[j].quantidade);
      }
      StepShift(rows, e, BaixarEstoque(rows1, lines[1..], now).value, lines, j0, false);
    }
  }

  /** Conversely, a record for every line, positive quantities and enough
      stock in every row make the loop succeed, whatever the order of the lines. */
  lemma {:induction false} BaixarSucceedsWhenCovered(rows: seq<EstoqueState>, lines: seq<ItemState>, now: Instant)
    requires AllStocked(rows, lines) && AllPositive(lines) && Covered(rows, lines)
    ensures BaixarEstoque(rows, lines, now).Ok?
    decreases |lines|
  {
    if lines != [] {
      var q := lines[0].quantidade;
      assert IndexOfEstoqueProduto(rows, lines[0].produtoId).Some?;
      var j0 := IndexOfEstoqueProduto(rows, lines[0].produtoId).value;
      DemandNonNegative(rows, lines[1..], j0);
      assert q <= rows[j0].quantidade;
      var e := rows[j0].RemoverQuantidade(q, now).value;
      var rows1 := rows[j0 := e];
      assert SameProducts(rows1, rows);
      forall i | 0 <= i < |lines[1..]|
        ensures IndexOfEstoqueProduto(rows1, lines[1..][i].produtoId).Some? && lines[1..][i].quantidade > 0
      {
        assert lines[1..][i] == lines[i + 1];
        LookupStable(rows1, rows, lines[i + 1].produtoId);
      }
      forall j | 0 <= j < |rows1| && 0 < Demand(rows1, lines[1..], j)
        ensures Demand(rows1, lines[1..], j) <= rows1[j].quantidade
      {
        DemandStable(rows1, rows, lines[1..], j);
        assert Demand(rows, lines, j) == (if j == j0 then q else 0) + Demand(rows, lines[1..], j);
      }
      BaixarSucceedsWhenCovered(rows1, lines[1..], now);
    }
  }

  /** With positive quantities the restocking loop always succeeds and raises
      every row by exactly its demand. */
  lemma {:induction false} DevolverShifts(rows: seq<EstoqueState>, lines: seq<ItemState>, now: Instant)
    requires AllPositive(lines)
    ensures DevolverEstoque(rows, lines, now).Ok?
    ensures Shifted(DevolverEstoque(rows, lines, now).value, rows, lines, true)
    decreases |lines|
  {
    if lines != [] {
      var q := lines[0].quantidade;
      match IndexOfEstoqueProduto(rows, lines[0].produtoId)
      case None =>
        DevolverShifts(rows, lines[1..], now);
      case Some(j0) =>
        var e := rows[j0].AdicionarQuantidade(q, now).value;
        var rows1 := rows[j0 := e];
        DevolverShifts(rows1, lines[1..], now);
        StepShift(rows, e, DevolverEstoque(rows1, lines[1..], now).value, lines, j0, true);
    }
  }

  // ---------------------------------------------------------------------------
  // Properties of the use cases

  /** Confirmation succeeds exactly for a pending sale with lines whose
      products all have records holding enough; then every record is lowered
      by exactly what the lines ask of it, never below zero, and the sale is
      confirmed with the given payment method. */
  lemma ConfirmarSemantics(st: Store, vendaId: Guid, forma: FormaPagamento, now: Instant)
    requires forall j :: 0 <= j < |st.estoques| ==> st.estoques[j].quantidade >= 0
    ensures var r := ConfirmarSpec(st, vendaId, forma, now);
            && (r.Ok? <==> vendaId in st.vendas &&
                           AllStocked(st.estoques, st.vendas[vendaId].itens) &&
                           AllPositive(st.vendas[vendaId].itens) &&
                           Covered(st.estoques, st.vendas[vendaId].itens) &&
                           st.vendas[vendaId].status == Pendente && |st.vendas[vendaId].itens| > 0)
            && (r.Ok? ==> var v := st.vendas[vendaId];
                          && Shifted(r.value.estoques, st.estoques, v.itens, false)
                          && (forall j :: 0 <= j < |r.value.estoques| ==> r.value.estoques[j].quantidade >= 0)
                          && r.value.vendas == st.vendas[vendaId := v.(status := Confirmada, formaPagamento := Some(forma))])
  {
    if vendaId in st.vendas {
      var lines := st.vendas[vendaId].itens;
      if BaixarEstoque(st.estoques, lines, now).Ok? {
        BaixarSucceeded(st.estoques, lines, now);
      }
      if AllStocked(st.estoques, lines) && AllPositive(lines) && Covered(st.estoques, lines) {
        BaixarSucceedsWhenCovered(st.estoques, lines, now);
      }
    }
  }

  /** A sale already cancelled cannot be cancelled again and nothing is given
      back; a pending sale is cancelled without touching the stock; a
      confirmed sale with positive lines gives back exactly what its lines ask. */
  lemma CancelarSemantics(st: Store, vendaId: Guid, now: Instant)
    requires vendaId in st.vendas
    ensures var v := st.vendas[vendaId];
            var r := CancelarSpec(st, vendaId, now);
            && (v.status == Cancelada ==> r == Err(InvalidOperation(AlreadyCancelled)))
            && (v.status == Pendente ==>
                  r == Ok(st.(vendas := st.vendas[vendaId := v.(status := Cancelada)])))
            && (v.status == Confirmada && AllPositive(v.itens) ==>
                  r.Ok? && Shifted(r.value.estoques, st.estoques, v.itens, true) &&
                  r.value.vendas == st.vendas[vendaId := v.(status := Cancelada)])
  {
    var v := st.vendas[vendaId];
    if v.status == Confirmada && AllPositive(v.itens) {
      DevolverShifts(st.estoques, v.itens, now);
    }
  }

  /** A restocking loop that succeeds keeps every row's product. */
  lemma {:induction false} DevolverKeepsProducts(rows: seq<EstoqueState>, lines: seq<ItemState>, now: Instant)
    requires DevolverEstoque(rows, lines, now).Ok?
    ensures SameProducts(DevolverEstoque(rows, lines, now).value, rows)
    decreases |lines|
  {
    if lines != [] {
      var rows1 := DevolverLinha(rows, lines[0], now).value;
      assert SameProducts(rows1, rows);
      DevolverKeepsProducts(rows1, lines[1..], now);
    }
  }

  /** On a store the database accepted, creating and editing a sale leave the
      products and the stock table alone, so each commit goes through. */
  lemma SaleEditsSaved(st: Store, vendaId: Guid, now: Instant, clienteId: Guid, obs: Option<string>,
                       pedidos: seq<ItemPedido>, ids: seq<Guid>, produtoId: Guid, itemId: Guid, q: int)
    requires Indexed(st) && |ids| == |pedidos|
    ensures Saved(CriarSpec(st, vendaId, now, clienteId, obs, pedidos, ids)) == CriarSpec(st, vendaId, now, clienteId, obs, pedidos, ids)
    ensures Saved(AdicionarItemSpec(st, vendaId, produtoId, q, itemId)) == AdicionarItemSpec(st, vendaId, produtoId, q, itemId)
    ensures Saved(RemoverItemSpec(st, vendaId, itemId)) == RemoverItemSpec(st, vendaId, itemId)
    ensures Saved(AtualizarQuantidadeItemSpec(st, vendaId, itemId, q)) == AtualizarQuantidadeItemSpec(st, vendaId, itemId, q)
  {
    SavedWhenKeyed(st, CriarSpec(st, vendaId, now, clienteId, obs, pedidos, ids));
    SavedWhenKeyed(st, AdicionarItemSpec(st, vendaId, produtoId, q, itemId));
    SavedWhenKeyed(st, RemoverItemSpec(st, vendaId, itemId));
    SavedWhenKeyed(st, AtualizarQuantidadeItemSpec(st, vendaId, itemId, q));
  }

  /** Confirming and cancelling move quantities between stock rows but keep
      every row's product, so on a store that keeps the unique indexes their
      commit goes through. */
  lemma StockMovesSaved(st: Store, vendaId: Guid, now: Instant, forma: FormaPagamento)
    requires Indexed(st)
    ensures Saved(ConfirmarSpec(st, vendaId, forma, now)) == ConfirmarSpec(st, vendaId, forma, now)
    ensures Saved(CancelarSpec(st, vendaId, now)) == CancelarSpec(st, vendaId, now)
  {
    if vendaId in st.vendas {
      var lines := st.vendas[vendaId].itens;
      if BaixarEstoque(st.estoques, lines, now).Ok? {
        BaixarSucceeded(st.estoques, lines, now);
      }
      if st.vendas[vendaId].status == Confirmada && DevolverEstoque(st.estoques, lines, now).Ok? {
        DevolverKeepsProducts(st.estoques, lines, now);
      }
    }
    SavedWhenKeyed(st, ConfirmarSpec(st, vendaId, forma, now));
    SavedWhenKeyed(st, CancelarSpec(st, vendaId, now));
  }

  /** A valid sale's lines all have positive quantities. */
  lemma ValidLinesPositive(v: VendaState)
    requires v.Valid()
    ensures AllPositive(v.itens)
  {
  }

  /** Confirming a sale and then cancelling it puts every stock record back
      to what it held before, only the dates of last change differ. */
  lemma ConfirmThenCancelRestoresStock(st: Store, vendaId: Guid, forma: FormaPagamento, t1: Instant, t2: Instant)
    requires ConfirmarSpec(st, vendaId, forma, t1).Ok?
    ensures var st1 := ConfirmarSpec(st, vendaId, forma, t1).value;
            var r := CancelarSpec(st1, vendaId, t2);
            && r.Ok?
            && SameExceptDates(r.value.estoques, st.estoques)
            && r.value.vendas[vendaId].status == Cancelada
            && r.value.vendas[vendaId].itens == st.vendas[vendaId].itens
  {
    var v := st.vendas[vendaId];
    var lines := v.itens;
    var rows := st.estoques;
    BaixarSucceeded(rows, lines, t1);
    var rows1 := BaixarEstoque(rows, lines, t1).value;
    var st1 := ConfirmarSpec(st, vendaId, forma, t1).value;
    assert st1.vendas[vendaId] == v.(status := Confirmada, formaPagamento := Some(forma));
    DevolverShifts(rows1, lines, t2);
    var rows2 := DevolverEstoque(rows1, lines, t2).value;
    assert CancelarSpec(st1, vendaId, t2).value.estoques == rows2;
    forall j | 0 <= j < |rows|
      ensures rows2[j].(dataUltimaAtualizacao := rows[j].dataUltimaAtualizacao) == rows[j]
    {
      DemandStable(rows1, rows, lines, j);
    }
  }

  /** The line carries the name and price of the product `p`, which is active. */
  predicate LineOf(x: ItemState, p: ProdutoState)
  {
    p.ativo && x.precoUnitario == p.precoUnitario && x.produtoNome == Trim(p.nome)
  }

  /** Every line holds the current name and price of an existing, active product. */
  predicate Snapshot(lines: seq<ItemState>, produtos: map<Guid, ProdutoState>)
  {
    forall i :: 0 <= i < |lines| ==> lines[i].produtoId in produtos && LineOf(lines[i], produtos[lines[i].produtoId])
  }

  /** One line of a snapshot. */
  lemma SnapshotAt(lines: seq<ItemState>, produtos: map<Guid, ProdutoState>, k: nat)
    requires Snapshot(lines, produtos) && k < |lines|
    ensures lines[k].produtoId in produtos && LineOf(lines[k], produtos[lines[k].produtoId])
  {
  }

  lemma SnapshotUpdate(lines: seq<ItemState>, produtos: map<Guid, ProdutoState>, i: nat, n: int)
    requires i < |lines| && Snapshot(lines, produtos)
    ensures Snapshot(lines[i := lines[i].(quantidade := n)], produtos)
  {
    var u := lines[i].(quantidade := n);
    var after := lines[i := u];
    forall k | 0 <= k < |after|
      ensures after[k].produtoId in produtos && LineOf(after[k], produtos[after[k].produtoId])
    {
      SnapshotAt(lines, produtos, k);
      if k != i {
        assert after[k] == lines[k];
      }
    }
  }

  lemma SnapshotAppend(lines: seq<ItemState>, produtos: map<Guid, ProdutoState>, x: ItemState)
    requires Snapshot(lines, produtos) && x.produtoId in produtos && LineOf(x, produtos[x.produtoId])
    ensures Snapshot(lines + [x], produtos)
  {
    var after := lines + [x];
    forall k | 0 <= k < |after|
      ensures after[k].produtoId in produtos && LineOf(after[k], produtos[after[k].produtoId])
    {
      if k < |lines| {
        SnapshotAt(lines, produtos, k);
        assert after[k] == lines[k];
      } else {
        assert after[k] == x;
      }
    }
  }

  lemma MergeKeepsSnapshot(v: VendaState, produtos: map<Guid, ProdutoState>, pid: Guid, id0: Guid, q: int, i: nat)
    requires pid in produtos && produtos[pid].id == pid && Snapshot(v.itens, produtos)
    requires IndexOfProduto(v.itens, pid) == Some(i)
    ensures var p := produtos[pid];
            var r := v.AdicionarItem(id0, p.id, p.nome, q, p.precoUnitario);
            r.Ok? ==> Snapshot(r.value.itens, produtos)
  {
    var p := produtos[pid];
    if v.status == Pendente {
      MergeShape(v, id0, pid, p.nome, q, p.precoUnitario, i);
      SnapshotUpdate(v.itens, produtos, i, v.itens[i].quantidade + q);
    }
  }

  lemma AppendKeepsSnapshot(v: VendaState, produtos: map<Guid, ProdutoState>, pid: Guid, id0: Guid, q: int)
    requires pid in produtos && produtos[pid].id == pid && produtos[pid].ativo && Snapshot(v.itens, produtos)
    requires IndexOfProduto(v.itens, pid).None?
    ensures var p := produtos[pid];
            var r := v.AdicionarItem(id0, p.id, p.nome, q, p.precoUnitario);
            r.Ok? ==> Snapshot(r.value.itens, produtos)
  {
    var p := produtos[pid];
    if v.status == Pendente {
      AdicionarAppends(v, id0, pid, p.nome, q, p.precoUnitario);
      var r := v.AdicionarItem(id0, pid, p.nome, q, p.precoUnitario);
      if r.Ok? {
        var x := ItemState(id0, v.id, pid, Trim(p.nome), q, p.precoUnitario);
        assert r.value.itens == v.itens + [x];
        SnapshotAppend(v.itens, produtos, x);
      }
    }
  }

  /** Adding an active product keeps every line a snapshot of its product. */
  lemma AdicionarKeepsSnapshot(v: VendaState, produtos: map<Guid, ProdutoState>, pid: Guid, id0: Guid, q: int)
    requires ProdutoKeys(produtos) && pid in produtos && produtos[pid].ativo && Snapshot(v.itens, produtos)
    ensures var p := produtos[pid];
            var r := v.AdicionarItem(id0, p.id, p.nome, q, p.precoUnitario);
            r.Ok? ==> Snapshot(r.value.itens, produtos)
  {
    match IndexOfProduto(v.itens, pid)
    case Some(i) => MergeKeepsSnapshot(v, produtos, pid, id0, q, i);
    case None => AppendKeepsSnapshot(v, produtos, pid, id0, q);
  }

  /** The creation loop adds only snapshots of existing active products and
      keeps the sale valid, so repeated products end up in a single line. */
  lemma {:induction false} AddLinesSnapshots(v: VendaState, produtos: map<Guid, ProdutoState>,
                                             pedidos: seq<ItemPedido>, ids: seq<Guid>)
    requires |ids| == |pedidos| && ProdutoKeys(produtos) && Snapshot(v.itens, produtos) && v.Valid()
    requires AddLines(v, produtos, pedidos, ids).Ok?
    ensures var r := AddLines(v, produtos, pedidos, ids).value;
            Snapshot(r.itens, produtos) && r.Valid() && r.status == v.status &&
            r == v.(itens := r.itens)
    decreases |pedidos|
  {
    if pedidos != [] {
      var p := produtos[pedidos[0].produtoId];
      AdicionarKeepsSnapshot(v, produtos, pedidos[0].produtoId, ids[0], pedidos[0].quantidade);
      AdicionarPreservesValid(v, ids[0], p.id, p.nome, pedidos[0].quantidade, p.precoUnitario);
      var v1 := v.AdicionarItem(ids[0], p.id, p.nome, pedidos[0].quantidade, p.precoUnitario).value;
      AddLinesSnapshots(v1, produtos, pedidos[1..], ids[1..]);
    }
  }

  /** A request for a missing or inactive product anywhere in the list fails the loop. */
  lemma {:induction false} AddLinesNeedsActiveProducts(v: VendaState, produtos: map<Guid, ProdutoState>,
                                                       pedidos: seq<ItemPedido>, ids: seq<Guid>, k: nat)
    requires |ids| == |pedidos| && k < |pedidos|
    requires pedidos[k].produtoId !in produtos || !produtos[pedidos[k].produtoId].ativo
    ensures AddLines(v, produtos, pedidos, ids).Err?
    decreases |pedidos|
  {
    if k > 0 {
      var pid := pedidos[0].produtoId;
      if pid in produtos && produtos[pid].ativo {
        var p := produtos[pid];
        var r := v.AdicionarItem(ids[0], p.id, p.nome, pedidos[0].quantidade, p.precoUnitario);
        if r.Ok? {
          assert pedidos[1..][k - 1] == pedidos[k];
          AddLinesNeedsActiveProducts(r.value, produtos, pedidos[1..], ids[1..], k - 1);
        }
      }
    }
  }

  /** A created sale belongs to an existing customer, is pending and valid, and
      holds only snapshots of existing active products; only the sales table changes. */
  lemma CriarSemantics(st: Store, vendaId: Guid, now: Instant, clienteId: Guid, obs: Option<string>,
                       pedidos: seq<ItemPedido>, ids: seq<Guid>)
    requires |ids| == |pedidos| && ProdutoKeys(st.produtos)
    ensures var r := CriarSpec(st, vendaId, now, clienteId, obs, pedidos, ids);
            && ((exists k :: 0 <= k < |pedidos| &&
                   (pedidos[k].produtoId !in st.produtos || !st.produtos[pedidos[k].produtoId].ativo)) ==> r.Err?)
            && (r.Ok? ==>
                  && clienteId in st.clientes
                  && vendaId in r.value.vendas
                  && r.value.vendas == st.vendas[vendaId := r.value.vendas[vendaId]]
                  && var v := r.value.vendas[vendaId];
                     v.Valid() && v.status == Pendente && v.id == vendaId && v.clienteId == clienteId &&
                     v.formaPagamento == None && Snapshot(v.itens, st.produtos))
  {
    if clienteId in st.clientes && clienteId != EmptyGuid {
      var v := NovaVenda(vendaId, clienteId, now, obs).value;
      if exists k :: 0 <= k < |pedidos| &&
                     (pedidos[k].produtoId !in st.produtos || !st.produtos[pedidos[k].produtoId].ativo) {
        var k :| 0 <= k < |pedidos| &&
                 (pedidos[k].produtoId !in st.produtos || !st.produtos[pedidos[k].produtoId].ativo);
        AddLinesNeedsActiveProducts(v, st.produtos, pedidos, ids, k);
      }
      if AddLines(v, st.produtos, pedidos, ids).Ok? {
        AddLinesSnapshots(v, st.produtos, pedidos, ids);
      }
    }
  }

  /** Adding an item through the service needs an existing sale and an
      existing, active product, and the line keeps that product's snapshot. */
  lemma AdicionarItemSemantics(st: Store, vendaId: Guid, produtoId: Guid, q: int, novoItemId: Guid)
    requires ProdutoKeys(st.produtos)
    requires vendaId in st.vendas && Snapshot(st.vendas[vendaId].itens, st.produtos)
    ensures var r := AdicionarItemSpec(st, vendaId, produtoId, q, novoItemId);
            r.Ok? ==> && produtoId in st.produtos && st.produtos[produtoId].ativo
                      && Snapshot(r.value.vendas[vendaId].itens, st.produtos)
                      && r.value.vendas == st.vendas[vendaId := r.value.vendas[vendaId]]
  {
    if produtoId in st.produtos && st.produtos[produtoId].ativo {
      AdicionarKeepsSnapshot(st.vendas[vendaId], st.produtos, produtoId, novoItemId, q);
    }
  }

  // ---------------------------------------------------------------------------
  // The use cases

  /** The body of the loop of `CriarAsync`: looks the product up and adds it
      to the sale. */
  method AdicionarPedido(venda: Venda, produtos: map<Guid, ProdutoState>, pedido: ItemPedido, id: Guid)
    returns (o: Outcome)
    requires venda.Valid()
    modifies venda, set x | x in venda.itens
    ensures venda.Valid() && forall x :: x in venda.itens ==> x in old(venda.itens) || fresh(x)
    ensures var r := AddLine(old(venda.State()), produtos, pedido, id);
            o == OutcomeOf(r) && venda.State() == (if r.Ok? then r.value else old(venda.State()))
  {
    var pid := pedido.produtoId;
    if pid !in produtos {
      return Fail(InvalidOperation(ProductNotFound));
    }
    var produto := produtos[pid];
    if !produto.ativo {
      return Fail(InvalidOperation(ProductInactive));
    }
    o := venda.AdicionarItem(id, produto.id, produto.nome, pedido.quantidade, produto.precoUnitario);
  }

  /** `CriarAsync(dto)`: returns the new sale. */
  method CriarAsync(uow: UnitOfWork, vendaId: Guid, now: Instant, clienteId: Guid, observacao: Option<string>,
                    pedidos: seq<ItemPedido>, ids: seq<Guid>) returns (r: Result<VendaState>)
    requires |ids| == |pedidos|
    modifies uow
    ensures var spec := Saved(CriarSpec(old(uow.committed), vendaId, now, clienteId, observacao, pedidos, ids));
            && OutcomeOf(r) == OutcomeOf(spec)
            && uow.committed == (if spec.Ok? then spec.value else old(uow.committed))
            && (r.Ok? ==> vendaId in spec.value.vendas && r.value == spec.value.vendas[vendaId])
  {
    var st := uow.committed;
    if clienteId !in st.clientes {
      return Err(InvalidOperation(ClientNotFound));
    }
    var created := Venda.New(vendaId, clienteId, now, observacao);
    if created.Err? {
      return Err(created.error);
    }
    var venda := created.value;
    ghost var v0 := venda.State();
    var k := 0;
    while k < |pedidos|
      invariant 0 <= k <= |pedidos|
      invariant fresh(venda) && venda.Valid() && forall x :: x in venda.itens ==> fresh(x)
      invariant uow.committed == st
      invariant AddLines(v0, st.produtos, pedidos, ids) == AddLines(venda.State(), st.produtos, pedidos[k..], ids[k..])
    {
      var o := AdicionarPedido(venda, st.produtos, pedidos[k], ids[k]);
      assert pedidos[k..][1..] == pedidos[k + 1..] && ids[k..][1..] == ids[k + 1..];
      if o.Fail? {
        return Err(o.error);
      }
      k := k + 1;
    }
    assert pedidos[k..] == [];
    var sale := venda.State();
    var saved := uow.Commit(st.(vendas := st.vendas[vendaId := sale]));
    if saved.Fail? {
      return Err(saved.error);
    }
    return Ok(sale);
  }

  /** `AdicionarItemAsync(vendaId, itemDto)`: returns the updated sale. */
  method AdicionarItemAsync(uow: UnitOfWork, vendaId: Guid, produtoId: Guid, quantidade: int,
                            novoItemId: Guid) returns (r: Result<VendaState>)
    modifies uow
    ensures var spec := Saved(AdicionarItemSpec(old(uow.committed), vendaId, produtoId, quantidade, novoItemId));
            && OutcomeOf(r) == OutcomeOf(spec)
            && uow.committed == (if spec.Ok? then spec.value else old(uow.committed))
  {
    var st := uow.committed;
    if vendaId !in st.vendas {
      return Err(InvalidOperation(SaleNotFound));
    }
    var venda := new Venda.FromState(st.vendas[vendaId]);
    assert forall x :: x in venda.itens ==> fresh(x);
    if produtoId !in st.produtos {
      return Err(InvalidOperation(ProductNotFound));
    }
    var produto := st.produtos[produtoId];
    if !produto.ativo {
      return Err(InvalidOperation(ProductInactive));
    }
    var o := venda.AdicionarItem(novoItemId, produto.id, produto.nome, quantidade, produto.precoUnitario);
    if o.Fail? {
      return Err(o.error);
    }
    var sale := venda.State();
    var saved := uow.Commit(st.(vendas := st.vendas[vendaId := sale]));
    if saved.Fail? {
      return Err(saved.error);
    }
    return Ok(sale);
  }

  /** `RemoverItemAsync(vendaId, itemId)`: returns the updated sale. */
  method RemoverItemAsync(uow: UnitOfWork, vendaId: Guid, itemId: Guid) returns (r: Result<VendaState>)
    modifies uow
    ensures var spec := Saved(RemoverItemSpec(old(uow.committed), vendaId, itemId));
            && OutcomeOf(r) == OutcomeOf(spec)
            && uow.committed == (if spec.Ok? then spec.value else old(uow.committed))
  {
    var st := uow.committed;
    if vendaId !in st.vendas {
      return Err(InvalidOperation(SaleNotFound));
    }
    var venda := new Venda.FromState(st.vendas[vendaId]);
    var o := venda.RemoverItem(itemId);
    if o.Fail? {
      return Err(o.error);
    }
    var sale := venda.State();
    var saved := uow.Commit(st.(vendas := st.vendas[vendaId := sale]));
    if saved.Fail? {
      return Err(saved.error);
    }
    return Ok(sale);
  }

  /** `AtualizarQuantidadeItemAsync(vendaId, itemId, novaQuantidade)`: returns the updated sale. */
  method AtualizarQuantidadeItemAsync(uow: UnitOfWork, vendaId: Guid, itemId: Guid, n: int) returns (r: Result<VendaState>)
    modifies uow
    ensures var spec := Saved(AtualizarQuantidadeItemSpec(old(uow.committed), vendaId, itemId, n));
            && OutcomeOf(r) == OutcomeOf(spec)
            && uow.committed == (if spec.Ok? then spec.value else old(uow.committed))
  {
    var st := uow.committed;
    if vendaId !in st.vendas {
      return Err(InvalidOperation(SaleNotFound));
    }
    var venda := new Venda.FromState(st.vendas[vendaId]);
    var o := venda.AtualizarQuantidadeItem(itemId, n);
    if o.Fail? {
      return Err(o.error);
    }
    var sale := venda.State();
    var saved := uow.Commit(st.(vendas := st.vendas[vendaId := sale]));
    if saved.Fail? {
      return Err(saved.error);
    }
    return Ok(sale);
  }

  /** The body of the loop of `ConfirmarAsync`: the record is materialised as
      an `Estoque`, checked and lowered, and its new state staged. */
  method BaixarItem(staged: seq<EstoqueState>, item: ItemVenda, now: Instant) returns (r: Result<seq<EstoqueState>>)
    ensures r == BaixarLinha(staged, item.State(), now)
  {
    var idx := IndexOfEstoqueProduto(staged, item.produtoId);
    if idx.None? {
      return Err(InvalidOperation(StockNotFound));
    }
    var estoque := new Estoque.FromState(staged[idx.value]);
    var available := estoque.TemEstoqueDisponivel(item.quantidade);
    if !available {
      return Err(InvalidOperation(InsufficientStock));
    }
    var o := estoque.RemoverQuantidade(item.quantidade, now);
    if o.Fail? {
      return Err(o.error);
    }
    return Ok(staged[idx.value := estoque.State()]);
  }

  /** The body of the loop of `CancelarAsync`. */
  method DevolverItem(staged: seq<EstoqueState>, item: ItemVenda, now: Instant) returns (r: Result<seq<EstoqueState>>)
    ensures r == DevolverLinha(staged, item.State(), now)
  {
    var idx := IndexOfEstoqueProduto(staged, item.produtoId);
    if idx.None? {
      return Ok(staged);
    }
    var estoque := new Estoque.FromState(staged[idx.value]);
    var o := estoque.AdicionarQuantidade(item.quantidade, now);
    if o.Fail? {
      return Err(o.error);
    }
    return Ok(staged[idx.value := estoque.State()]);
  }

  /** `ConfirmarAsync(vendaId, dto)`: the stock records are changed one line
      at a time on a staged copy of the table, which is committed with the
      confirmed sale. */
  method ConfirmarAsync(uow: UnitOfWork, vendaId: Guid, forma: FormaPagamento, now: Instant) returns (r: Result<VendaState>)
    modifies uow
    ensures var spec := Saved(ConfirmarSpec(old(uow.committed), vendaId, forma, now));
            && OutcomeOf(r) == OutcomeOf(spec)
            && uow.committed == (if spec.Ok? then spec.value else old(uow.committed))
  {
    var st := uow.committed;
    if vendaId !in st.vendas {
      return Err(InvalidOperation(SaleNotFound));
    }
    var venda := new Venda.FromState(st.vendas[vendaId]);
    var staged := BaixarItens(venda, st.estoques, now);
    if staged.Err? {
      return Err(staged.error);
    }
    var o := venda.Confirmar(forma);
    if o.Fail? {
      return Err(o.error);
    }
    var sale := venda.State();
    var saved := uow.Commit(st.(estoques := staged.value, vendas := st.vendas[vendaId := sale]));
    if saved.Fail? {
      return Err(saved.error);
    }
    return Ok(sale);
  }

  /** The loop of `ConfirmarAsync`: each line of the sale in turn is taken out
      of a staged copy of the stock table, stopping at the first failure. */
  method BaixarItens(venda: Venda, rows: seq<EstoqueState>, now: Instant) returns (r: Result<seq<EstoqueState>>)
    ensures r == BaixarEstoque(rows, venda.State().itens, now)
  {
    ghost var lines := venda.State().itens;
    var staged := rows;
    var k := 0;
    while k < |venda.itens|
      invariant 0 <= k <= |venda.itens| == |lines|
      invariant BaixarEstoque(rows, lines, now) == BaixarEstoque(staged, lines[k..], now)
    {
      var item := venda.itens[k];
      assert item.State() == lines[k];
      assert lines[k..][0] == lines[k] && lines[k..][1..] == lines[k + 1..];
      var step := BaixarItem(staged, item, now);
      if step.Err? {
        return Err(step.error);
      }
      staged := step.value;
      k := k + 1;
    }
    assert lines[k..] == [];
    return Ok(staged);
  }

  /** `CancelarAsync(vendaId)`: a confirmed sale's lines go back to their stock
      records on a staged copy of the table, committed with the cancelled sale. */
  method CancelarAsync(uow: UnitOfWork, vendaId: Guid, now: Instant) returns (r: Result<VendaState>)
    modifies uow
    ensures var spec := Saved(CancelarSpec(old(uow.committed), vendaId, now));
            && OutcomeOf(r) == OutcomeOf(spec)
            && uow.committed == (if spec.Ok? then spec.value else old(uow.committed))
  {
    var st := uow.committed;
    if vendaId !in st.vendas {
      return Err(InvalidOperation(SaleNotFound));
    }
    var venda := new Venda.FromState(st.vendas[vendaId]);
    var staged := Ok(st.estoques);
    if venda.status == Confirmada {
      staged := DevolverItens(venda, st.estoques, now);
      if staged.Err? {
        return Err(staged.error);
      }
    }
    var o := venda.Cancelar();
    if o.Fail? {
      return Err(o.error);
    }
    var sale := venda.State();
    var saved := uow.Commit(st.(estoques := staged.value, vendas := st.vendas[vendaId := sale]));
    if saved.Fail? {
      return Err(saved.error);
    }
    return Ok(sale);
  }

  /** The loop of `CancelarAsync`: each line of the sale in turn goes back to a
      staged copy of the stock table. */
  method DevolverItens(venda: Venda, rows: seq<EstoqueState>, now: Instant) returns (r: Result<seq<EstoqueState>>)
    ensures r == DevolverEstoque(rows, venda.State().itens, now)
  {
    ghost var lines := venda.State().itens;
    var staged := rows;
    var k := 0;
    while k < |venda.itens|
      invariant 0 <= k <= |venda.itens| == |lines|
      invariant DevolverEstoque(rows, lines, now) == DevolverEstoque(staged, lines[k..], now)
    {
      var item := venda.itens[k];
      assert item.State() == lines[k];
      assert lines[k..][0] == lines[k] && lines[k..][1..] == lines[k + 1..];
      var step := DevolverItem(staged, item, now);
      if step.Err? {
        return Err(step.error);
      }
      staged := step.value;
      k := k + 1;
    }
    assert lines[k..] == [];
    return Ok(staged);
  }
}
