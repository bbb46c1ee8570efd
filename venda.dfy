/** The Venda entity (GerenciamentoDeVendas/Domain/Entities/Venda.cs): a sale with its
    lines, a `Pendente → Confirmada/Cancelada` status machine and a live total. */
module VendaEntity {

  import opened Common
  import opened Text
  import opened ItemVendaEntity

  datatype StatusVenda = Pendente | Confirmada | Cancelada

  datatype FormaPagamento = Dinheiro | CartaoCredito | CartaoDebito | Pix | Boleto | Transferencia

  /** `ValorTotal => Itens.Sum(i => i.Subtotal)`. */
  function Total(s: seq<ItemState>): real
  {
    if s == [] then 0.0 else s[0].Subtotal() + Total(s[1..])
  }

  /** `Itens.FirstOrDefault(i => i.ProdutoId == produtoId)`, as a position. */
  function IndexOfProduto(s: seq<ItemState>, produtoId: Guid): (r: Option<nat>)
    ensures r.None? <==> forall k :: 0 <= k < |s| ==> s[k].produtoId != produtoId
    ensures r.Some? ==> r.value < |s| && s[r.value].produtoId == produtoId &&
                        forall k :: 0 <= k < r.value ==> s[k].produtoId != produtoId
  {
    if s == [] then None
    else if s[0].produtoId == produtoId then Some(0)
    else match IndexOfProduto(s[1..], produtoId)
      case None => None
      case Some(k) => Some(k + 1)
  }

  /** `Itens.FirstOrDefault(i => i.Id == itemId)`, as a position. */
  function IndexOfItem(s: seq<ItemState>, itemId: Guid): (r: Option<nat>)
    ensures r.None? <==> forall k :: 0 <= k < |s| ==> s[k].id != itemId
    ensures r.Some? ==> r.value < |s| && s[r.value].id == itemId &&
                        forall k :: 0 <= k < r.value ==> s[k].id != itemId
  {
    if s == [] then None
    else if s[0].id == itemId then Some(0)
    else match IndexOfItem(s[1..], itemId)
      case None => None
      case Some(k) => Some(k + 1)
  }

  /** No two lines are for the same product. */
  predicate DistinctProdutos(s: seq<ItemState>)
  {
    forall i, j :: 0 <= i < j < |s| ==> s[i].produtoId != s[j].produtoId
  }

  /** Every line is a valid item of the sale `vendaId`. */
  predicate LinesOf(s: seq<ItemState>, vendaId: Guid)
  {
    forall i :: 0 <= i < |s| ==> s[i].Valid() && s[i].vendaId == vendaId
  }

  /** `s` without its element at `i`: what `List.Remove` leaves. */
  function RemoveAt<T>(s: seq<T>, i: nat): (r: seq<T>)
    requires i < |s|
    ensures |r| == |s| - 1 && multiset(r) + multiset{s[i]} == multiset(s)
    ensures forall k :: 0 <= k < |r| ==> r[k] == (if k < i then s[k] else s[k + 1])
  {
    assert s == s[..i] + [s[i]] + s[i + 1..];
    s[..i] + s[i + 1..]
  }

  /** The fields of a sale. */
  datatype VendaState = VendaState(
    id: Guid,
    clienteId: Guid,
    dataVenda: Instant,
    itens: seq<ItemState>,
    status: StatusVenda,
    formaPagamento: Option<FormaPagamento>,
    observacao: Option<string>)
  {
    /** What the constructor establishes and every method keeps: valid lines
        of this sale, one line per product, no payment method before the
        confirmation, and a confirmed sale has lines and a payment method. */
    predicate Valid()
    {
      && clienteId != EmptyGuid
      && LinesOf(itens, id)
      && DistinctProdutos(itens)
      && (status == Pendente ==> formaPagamento.None?)
      && (status == Confirmada ==> formaPagamento.Some? && |itens| > 0)
    }

    function ValorTotal(): real
    {
      Total(itens)
    }

    /** `PodeSerEditada()`. */
    predicate PodeSerEditada()
    {
      status == Pendente
    }

    /** `AdicionarItem(produtoId, produtoNome, quantidade, precoUnitario)`, with the
        `Guid.NewGuid()` of a new line passed in as `novoItemId`. A product
        already present is merged into its line through `AtualizarQuantidade`
        of the summed quantity, which keeps that line's name and price. */
    function AdicionarItem(novoItemId: Guid, produtoId: Guid, produtoNome: string,
                           quantidade: int, precoUnitario: real): (r: Result<VendaState>)
      ensures status != Pendente ==> r == Err(InvalidOperation(AddItemNotPending))
      ensures r.Ok? ==> r.value == this.(itens := r.value.itens)
      ensures r.Ok? ==> IndexOfProduto(r.value.itens, produtoId).Some?
    {
      if status != Pendente then Err(InvalidOperation(AddItemNotPending))
      else match IndexOfProduto(itens, produtoId)
        case Some(i) =>
          var u :- itens[i].AtualizarQuantidade(itens[i].quantidade + quantidade);
          assert itens[i := u][i].produtoId == produtoId;
          Ok(this.(itens := itens[i := u]))
        case None =>
          var n :- NewItem(novoItemId, id, produtoId, produtoNome, quantidade, precoUnitario);
          assert (itens + [n])[|itens|].produtoId == produtoId;
          Ok(this.(itens := itens + [n]))
    }

    /** `RemoverItem(itemId)`: removes the first line with that id. */
    function RemoverItem(itemId: Guid): (r: Result<VendaState>)
      ensures status != Pendente ==> r == Err(InvalidOperation(RemoveItemNotPending))
      ensures r.Ok? ==> r.value == this.(itens := r.value.itens)
    {
      if status != Pendente then Err(InvalidOperation(RemoveItemNotPending))
      else match IndexOfItem(itens, itemId)
        case None => Err(InvalidOperation(ItemNotFound))
        case Some(i) => Ok(this.(itens := RemoveAt(itens, i)))
    }

    /** `AtualizarQuantidadeItem(itemId, novaQuantidade)`. */
    function AtualizarQuantidadeItem(itemId: Guid, novaQuantidade: int): (r: Result<VendaState>)
      ensures status != Pendente ==> r == Err(InvalidOperation(UpdateItemNotPending))
      ensures r.Ok? ==> r.value == this.(itens := r.value.itens)
    {
      if status != Pendente then Err(InvalidOperation(UpdateItemNotPending))
      else match IndexOfItem(itens, itemId)
        case None => Err(InvalidOperation(ItemNotFound))
        case Some(i) =>
          var u :- itens[i].AtualizarQuantidade(novaQuantidade);
          Ok(this.(itens := itens[i := u]))
    }

    /** `Confirmar(formaPagamento)`: the status is checked before the lines. */
    function Confirmar(forma: FormaPagamento): (r: Result<VendaState>)
      ensures r.Ok? <==> status == Pendente && |itens| > 0
      ensures r.Ok? ==> r.value == this.(status := Confirmada, formaPagamento := Some(forma))
      ensures status != Pendente ==> r == Err(InvalidOperation(ConfirmNotPending))
      ensures status == Pendente && |itens| == 0 ==> r == Err(InvalidOperation(EmptySale))
    {
      if status != Pendente then Err(InvalidOperation(ConfirmNotPending))
      else if |itens| == 0 then Err(InvalidOperation(EmptySale))
      else Ok(this.(formaPagamento := Some(forma), status := Confirmada))
    }

    /** `Cancelar()`: a pending or a confirmed sale can be cancelled. */
    function Cancelar(): (r: Result<VendaState>)
      ensures r.Ok? <==> status != Cancelada
      ensures r.Ok? ==> r.value == this.(status := Cancelada)
      ensures r.Err? ==> r.error == InvalidOperation(AlreadyCancelled)
    {
      if status == Cancelada then Err(InvalidOperation(AlreadyCancelled))
      else Ok(this.(status := Cancelada))
    }

    /** `AtualizarObservacao(novaObservacao)`: no status guard, in any state. */
    function AtualizarObservacao(obs: Option<string>): (r: VendaState)
      ensures r.observacao == TrimOpt(obs) && r.(observacao := observacao) == this
    {
      this.(observacao := TrimOpt(obs))
    }
  }

  /** `new Venda(clienteId, observacao)`, with `Guid.NewGuid()` and `DateTime.Now`
      passed in: a pending sale without lines. */
  function NovaVenda(id: Guid, clienteId: Guid, now: Instant, observacao: Option<string>): (r: Result<VendaState>)
    ensures r.Ok? <==> clienteId != EmptyGuid
    ensures r.Err? ==> r.error == ArgumentError("clienteId")
    ensures r.Ok? ==> (r.value.Valid() && r.value.status == Pendente && r.value.itens == [] &&
                       r.value.ValorTotal() == 0.0 && r.value.formaPagamento == None &&
                       r.value.id == id && r.value.clienteId == clienteId && r.value.dataVenda == now &&
                       r.value.observacao == TrimOpt(observacao))
  {
    if clienteId == EmptyGuid then Err(ArgumentError("clienteId"))
    else Ok(VendaState(id, clienteId, now, [], Pendente, None, TrimOpt(observacao)))
  }

  // ---------------------------------------------------------------------------
  // The total

  lemma {:induction false} TotalAppend(s: seq<ItemState>, x: ItemState)
    ensures Total(s + [x]) == Total(s) + x.Subtotal()
  {
    if s == [] {
      assert [x][1..] == [];
    } else {
      assert (s + [x])[1..] == s[1..] + [x];
      TotalAppend(s[1..], x);
    }
  }

  lemma {:induction false} TotalUpdate(s: seq<ItemState>, i: nat, x: ItemState)
    requires i < |s|
    ensures Total(s[i := x]) == Total(s) - s[i].Subtotal() + x.Subtotal()
  {
    if i > 0 {
      assert s[i := x][1..] == s[1..][i - 1 := x];
      TotalUpdate(s[1..], i - 1, x);
    } else {
      assert s[i := x][1..] == s[1..];
    }
  }

  lemma {:induction false} TotalRemove(s: seq<ItemState>, i: nat)
    requires i < |s|
    ensures Total(RemoveAt(s, i)) == Total(s) - s[i].Subtotal()
  {
    var r := RemoveAt(s, i);
    if i > 0 {
      var r1 := RemoveAt(s[1..], i - 1);
      forall k | 0 <= k < |r1|
        ensures r[1..][k] == r1[k]
      {
        assert r[k + 1] == (if k + 1 < i then s[k + 1] else s[k + 2]);
      }
      assert r[1..] == r1;
      assert r[0] == s[0];
      TotalRemove(s[1..], i - 1);
    } else {
      assert r == s[1..];
    }
  }

  /** The total of valid lines is never negative. */
  lemma {:induction false} TotalNonNegative(s: seq<ItemState>, vendaId: Guid)
    requires LinesOf(s, vendaId)
    ensures Total(s) >= 0.0
  {
    if s != [] {
      SubtotalBounds(s[0], s[0].quantidade);
      TotalNonNegative(s[1..], vendaId);
    }
  }

  // ---------------------------------------------------------------------------
  // The lines

  /** On a pending sale whose first line for the product is `i`, adding merges
      into that line: only the sum is checked. */
  lemma MergeShape(v: VendaState, novoItemId: Guid, produtoId: Guid, produtoNome: string,
                   quantidade: int, precoUnitario: real, i: nat)
    requires v.status == Pendente && IndexOfProduto(v.itens, produtoId) == Some(i)
    ensures var r := v.AdicionarItem(novoItemId, produtoId, produtoNome, quantidade, precoUnitario);
            && (r.Ok? <==> v.itens[i].quantidade + quantidade > 0)
            && (r.Err? ==> r.error == ArgumentError("novaQuantidade"))
            && (r.Ok? ==> r.value == v.(itens := v.itens[i := v.itens[i].(quantidade := v.itens[i].quantidade + quantidade)]))
  {
  }

  /** Adding a product already present keeps one line for it, whose quantity
      is the sum and whose name and price stay; the added quantity itself is
      not checked, only the sum. */
  lemma AdicionarMerges(v: VendaState, novoItemId: Guid, produtoId: Guid, produtoNome: string,
                        quantidade: int, precoUnitario: real, i: nat)
    requires v.status == Pendente && i < |v.itens| && v.itens[i].produtoId == produtoId
    requires DistinctProdutos(v.itens)
    ensures var r := v.AdicionarItem(novoItemId, produtoId, produtoNome, quantidade, precoUnitario);
            && (r.Ok? <==> v.itens[i].quantidade + quantidade > 0)
            && (r.Err? ==> r.error == ArgumentError("novaQuantidade"))
            && (r.Ok? ==> r.value.itens == v.itens[i := v.itens[i].(quantidade := v.itens[i].quantidade + quantidade)])
  {
    assert IndexOfProduto(v.itens, produtoId) == Some(i);
    MergeShape(v, novoItemId, produtoId, produtoNome, quantidade, precoUnitario, i);
  }

  /** On a pending sale without a line for the product, adding builds the line
      with the `ItemVenda` constructor. */
  lemma AppendShape(v: VendaState, novoItemId: Guid, produtoId: Guid, produtoNome: string,
                    quantidade: int, precoUnitario: real)
    requires v.status == Pendente && IndexOfProduto(v.itens, produtoId).None?
    ensures var r := v.AdicionarItem(novoItemId, produtoId, produtoNome, quantidade, precoUnitario);
            var n := NewItem(novoItemId, v.id, produtoId, produtoNome, quantidade, precoUnitario);
            && OutcomeOf(r) == OutcomeOf(n)
            && (r.Ok? ==> r.value == v.(itens := v.itens + [n.value]))
  {
  }

  /** Adding a product not yet present appends a new line for it, validated by
      the `ItemVenda` constructor on behalf of this sale. */
  lemma AdicionarAppends(v: VendaState, novoItemId: Guid, produtoId: Guid, produtoNome: string,
                         quantidade: int, precoUnitario: real)
    requires v.status == Pendente
    requires forall k :: 0 <= k < |v.itens| ==> v.itens[k].produtoId != produtoId
    ensures var r := v.AdicionarItem(novoItemId, produtoId, produtoNome, quantidade, precoUnitario);
            var n := NewItem(novoItemId, v.id, produtoId, produtoNome, quantidade, precoUnitario);
            && OutcomeOf(r) == OutcomeOf(n)
            && (r.Ok? ==> r.value.itens == v.itens + [ItemState(novoItemId, v.id, produtoId, Trim(produtoNome),
                                                                 quantidade, precoUnitario)])
  {
    AppendShape(v, novoItemId, produtoId, produtoNome, quantidade, precoUnitario);
  }

  /** A zero or negative quantity is refused for a new line but accepted on a
      merge while the sum stays positive. */
  lemma AdicionarQuantityAsymmetry(v: VendaState, novoItemId: Guid, produtoId: Guid, produtoNome: string,
                                    quantidade: int, precoUnitario: real)
    requires v.status == Pendente && quantidade <= 0
    ensures (forall k :: 0 <= k < |v.itens| ==> v.itens[k].produtoId != produtoId) ==>
              v.AdicionarItem(novoItemId, produtoId, produtoNome, quantidade, precoUnitario).Err?
    ensures (exists k :: 0 <= k < |v.itens| && v.itens[k].produtoId == produtoId &&
                          v.itens[k].quantidade + quantidade > 0 &&
                          forall j :: 0 <= j < k ==> v.itens[j].produtoId != produtoId) ==>
              v.AdicionarItem(novoItemId, produtoId, produtoNome, quantidade, precoUnitario).Ok?
  {
    var r := v.AdicionarItem(novoItemId, produtoId, produtoNome, quantidade, precoUnitario);
    if exists k :: 0 <= k < |v.itens| && v.itens[k].produtoId == produtoId &&
                   v.itens[k].quantidade + quantidade > 0 &&
                   forall j :: 0 <= j < k ==> v.itens[j].produtoId != produtoId {
      var k :| 0 <= k < |v.itens| && v.itens[k].produtoId == produtoId &&
               v.itens[k].quantidade + quantidade > 0 &&
               forall j :: 0 <= j < k ==> v.itens[j].produtoId != produtoId;
      assert IndexOfProduto(v.itens, produtoId) == Some(k);
    }
  }

  /** The first line for a product is the only one its ensures describe. */
  lemma IndexOfProdutoIs(s: seq<ItemState>, produtoId: Guid, i: nat)
    requires i < |s| && s[i].produtoId == produtoId
    requires forall k :: 0 <= k < i ==> s[k].produtoId != produtoId
    ensures IndexOfProduto(s, produtoId) == Some(i)
  {
    var r := IndexOfProduto(s, produtoId);
    assert r.Some?;
    assert !(r.value < i) && !(r.value > i);
  }

  /** Replacing the first line for a product by a line for the same product. */
  lemma UpdateLineFacts(s: seq<ItemState>, produtoId: Guid, i: nat, u: ItemState)
    requires IndexOfProduto(s, produtoId) == Some(i) && u.produtoId == produtoId
    ensures IndexOfProduto(s[i := u], produtoId) == Some(i)
    ensures Total(s[i := u]) == Total(s) - s[i].Subtotal() + u.Subtotal()
  {
    TotalUpdate(s, i, u);
    assert forall k :: 0 <= k < i ==> s[i := u][k] == s[k];
    IndexOfProdutoIs(s[i := u], produtoId, i);
  }

  /** Raising the quantity of the first line for a product by `q`. */
  lemma MergedLineFacts(s: seq<ItemState>, produtoId: Guid, i: nat, q: int)
    requires IndexOfProduto(s, produtoId) == Some(i)
    ensures var u := s[i].(quantidade := s[i].quantidade + q);
            && IndexOfProduto(s[i := u], produtoId) == Some(i)
            && Total(s[i := u]) == Total(s) + q as real * s[i].precoUnitario
  {
    var x := s[i];
    var u := x.(quantidade := x.quantidade + q);
    UpdateLineFacts(s, produtoId, i, u);
    SubtotalRaised(x, q);
  }

  lemma SubtotalRaised(x: ItemState, q: int)
    ensures x.(quantidade := x.quantidade + q).Subtotal() == x.Subtotal() + q as real * x.precoUnitario
  {
    var u := x.(quantidade := x.quantidade + q);
    assert u.quantidade as real == x.quantidade as real + q as real;
  }

  /** Appending the first line for a product. */
  lemma AppendLineFacts(s: seq<ItemState>, produtoId: Guid, n: ItemState)
    requires IndexOfProduto(s, produtoId).None? && n.produtoId == produtoId
    ensures IndexOfProduto(s + [n], produtoId) == Some(|s|)
    ensures Total(s + [n]) == Total(s) + n.Subtotal()
  {
    TotalAppend(s, n);
    assert forall k :: 0 <= k < |s| ==> (s + [n])[k] == s[k];
    IndexOfProdutoIs(s + [n], produtoId, |s|);
  }

  /** Adding a product already present raises the total by the added quantity
      times the price stored in its line, whatever price the caller gives. */
  lemma AdicionarTotalOnMerge(v: VendaState, novoItemId: Guid, produtoId: Guid, produtoNome: string,
                   quantidade: int, precoUnitario: real, i: nat)
    requires IndexOfProduto(v.itens, produtoId) == Some(i)
    requires v.AdicionarItem(novoItemId, produtoId, produtoNome, quantidade, precoUnitario).Ok?
    ensures var r := v.AdicionarItem(novoItemId, produtoId, produtoNome, quantidade, precoUnitario).value;
            && IndexOfProduto(r.itens, produtoId) == Some(i)
            && r.itens[i].precoUnitario == v.itens[i].precoUnitario
            && r.ValorTotal() == v.ValorTotal() + quantidade as real * v.itens[i].precoUnitario
  {
    MergeShape(v, novoItemId, produtoId, produtoNome, quantidade, precoUnitario, i);
    MergedLineFacts(v.itens, produtoId, i, quantidade);
  }

  /** Adding a new product raises the total by the quantity times the given price. */
  lemma AdicionarTotalOnAppend(v: VendaState, novoItemId: Guid, produtoId: Guid, produtoNome: string,
                    quantidade: int, precoUnitario: real)
    requires IndexOfProduto(v.itens, produtoId).None?
    requires v.AdicionarItem(novoItemId, produtoId, produtoNome, quantidade, precoUnitario).Ok?
    ensures var r := v.AdicionarItem(novoItemId, produtoId, produtoNome, quantidade, precoUnitario).value;
            && IndexOfProduto(r.itens, produtoId) == Some(|v.itens|)
            && r.itens[|v.itens|].precoUnitario == precoUnitario
            && r.ValorTotal() == v.ValorTotal() + quantidade as real * precoUnitario
  {
    AppendShape(v, novoItemId, produtoId, produtoNome, quantidade, precoUnitario);
    var n := NewItem(novoItemId, v.id, produtoId, produtoNome, quantidade, precoUnitario).value;
    AppendLineFacts(v.itens, produtoId, n);
  }

  /** Removing succeeds exactly on a pending sale holding a line with that id,
      and drops exactly that line (the first with the id) and its subtotal. */
  lemma RemoverSemantics(v: VendaState, itemId: Guid)
    ensures var r := v.RemoverItem(itemId);
            && (r.Ok? <==> v.status == Pendente && exists k :: 0 <= k < |v.itens| && v.itens[k].id == itemId)
            && (v.status == Pendente && (forall k :: 0 <= k < |v.itens| ==> v.itens[k].id != itemId) ==>
                  r == Err(InvalidOperation(ItemNotFound)))
            && (r.Ok? ==> var i := IndexOfItem(v.itens, itemId).value;
                          && multiset(r.value.itens) + multiset{v.itens[i]} == multiset(v.itens)
                          && |r.value.itens| == |v.itens| - 1
                          && r.value.ValorTotal() == v.ValorTotal() - v.itens[i].Subtotal())
  {
    if v.status == Pendente && IndexOfItem(v.itens, itemId).Some? {
      TotalRemove(v.itens, IndexOfItem(v.itens, itemId).value);
    }
  }

  /** Updating a quantity succeeds exactly on a pending sale holding a line
      with that id and for a positive quantity, and changes only that line's
      quantity, and the total by the difference. */
  lemma AtualizarQuantidadeItemSemantics(v: VendaState, itemId: Guid, n: int)
    ensures var r := v.AtualizarQuantidadeItem(itemId, n);
            && (r.Ok? <==> v.status == Pendente && n > 0 &&
                           exists k :: 0 <= k < |v.itens| && v.itens[k].id == itemId)
            && (v.status == Pendente && (forall k :: 0 <= k < |v.itens| ==> v.itens[k].id != itemId) ==>
                  r == Err(InvalidOperation(ItemNotFound)))
            && (r.Ok? ==> var i := IndexOfItem(v.itens, itemId).value;
                          && r.value.itens == v.itens[i := v.itens[i].(quantidade := n)]
                          && r.value.ValorTotal() ==
                               v.ValorTotal() + (n - v.itens[i].quantidade) as real * v.itens[i].precoUnitario)
  {
    if v.status == Pendente && IndexOfItem(v.itens, itemId).Some? && n > 0 {
      var i := IndexOfItem(v.itens, itemId).value;
      TotalUpdate(v.itens, i, v.itens[i].(quantidade := n));
    }
  }

  // ---------------------------------------------------------------------------
  // The status machine

  /** Only a pending sale can be edited, and editing keeps it pending. */
  lemma EditingNeedsPendente(v: VendaState, novoItemId: Guid, produtoId: Guid, produtoNome: string,
                             quantidade: int, precoUnitario: real, itemId: Guid)
    ensures !v.PodeSerEditada() ==>
              && v.AdicionarItem(novoItemId, produtoId, produtoNome, quantidade, precoUnitario)
                   == Err(InvalidOperation(AddItemNotPending))
              && v.RemoverItem(itemId) == Err(InvalidOperation(RemoveItemNotPending))
              && v.AtualizarQuantidadeItem(itemId, quantidade) == Err(InvalidOperation(UpdateItemNotPending))
    ensures v.AdicionarItem(novoItemId, produtoId, produtoNome, quantidade, precoUnitario).Ok? ==>
              v.AdicionarItem(novoItemId, produtoId, produtoNome, quantidade, precoUnitario).value.PodeSerEditada()
    ensures v.RemoverItem(itemId).Ok? ==> v.RemoverItem(itemId).value.PodeSerEditada()
    ensures v.AtualizarQuantidadeItem(itemId, quantidade).Ok? ==>
              v.AtualizarQuantidadeItem(itemId, quantidade).value.PodeSerEditada()
  {
  }

  /** A cancelled sale is final: every guarded method refuses it, and only the
      unguarded `AtualizarObservacao` still changes it, in its note alone. */
  lemma CanceladaIsFinal(v: VendaState, novoItemId: Guid, produtoId: Guid, produtoNome: string,
                         quantidade: int, precoUnitario: real, itemId: Guid, forma: FormaPagamento,
                         obs: Option<string>)
    requires v.status == Cancelada
    ensures v.AdicionarItem(novoItemId, produtoId, produtoNome, quantidade, precoUnitario).Err?
    ensures v.RemoverItem(itemId).Err? && v.AtualizarQuantidadeItem(itemId, quantidade).Err?
    ensures v.Confirmar(forma).Err? && v.Cancelar().Err?
    ensures v.AtualizarObservacao(obs) == v.(observacao := TrimOpt(obs))
  {
  }

  /** The status moves only from Pendente to Confirmada, and from Pendente or
      Confirmada to Cancelada. */
  lemma StatusTransitions(v: VendaState, forma: FormaPagamento)
    ensures v.Confirmar(forma).Ok? ==> v.status == Pendente && v.Confirmar(forma).value.status == Confirmada
    ensures v.Cancelar().Ok? ==> v.status in {Pendente, Confirmada} && v.Cancelar().value.status == Cancelada
    ensures v.Confirmar(forma).Ok? ==> v.Confirmar(forma).value.Cancelar().Ok?
    ensures v.AtualizarObservacao(None).status == v.status
  {
  }

  // ---------------------------------------------------------------------------
  // The invariant

  /** Changing one line's quantity to a positive one keeps the sale valid. */
  lemma UpdatedQuantityValid(v: VendaState, i: nat, n: int)
    requires v.Valid() && i < |v.itens| && n > 0
    ensures v.(itens := v.itens[i := v.itens[i].(quantidade := n)]).Valid()
  {
  }

  /** Appending a valid line of this sale for a new product keeps the sale valid. */
  lemma AppendedLineValid(v: VendaState, x: ItemState)
    requires v.Valid() && x.Valid() && x.vendaId == v.id
    requires forall k :: 0 <= k < |v.itens| ==> v.itens[k].produtoId != x.produtoId
    ensures v.(itens := v.itens + [x]).Valid()
  {
    assert forall k :: 0 <= k < |v.itens| ==> (v.itens + [x])[k] == v.itens[k];
  }

  lemma AdicionarPreservesValid(v: VendaState, novoItemId: Guid, produtoId: Guid, produtoNome: string,
                                quantidade: int, precoUnitario: real)
    requires v.Valid()
    ensures var r := v.AdicionarItem(novoItemId, produtoId, produtoNome, quantidade, precoUnitario);
            r.Ok? ==> r.value.Valid()
  {
    if v.status == Pendente {
      match IndexOfProduto(v.itens, produtoId)
      case Some(i) =>
        MergeShape(v, novoItemId, produtoId, produtoNome, quantidade, precoUnitario, i);
        if v.itens[i].quantidade + quantidade > 0 {
          UpdatedQuantityValid(v, i, v.itens[i].quantidade + quantidade);
        }
      case None =>
        AppendShape(v, novoItemId, produtoId, produtoNome, quantidade, precoUnitario);
        var n := NewItem(novoItemId, v.id, produtoId, produtoNome, quantidade, precoUnitario);
        if n.Ok? {
          AppendedLineValid(v, n.value);
        }
    }
  }

  lemma RemoverPreservesValid(v: VendaState, itemId: Guid)
    requires v.Valid()
    ensures v.RemoverItem(itemId).Ok? ==> v.RemoverItem(itemId).value.Valid()
  {
  }

  lemma AtualizarQuantidadeItemPreservesValid(v: VendaState, itemId: Guid, n: int)
    requires v.Valid()
    ensures v.AtualizarQuantidadeItem(itemId, n).Ok? ==> v.AtualizarQuantidadeItem(itemId, n).value.Valid()
  {
    if v.AtualizarQuantidadeItem(itemId, n).Ok? {
      var i := IndexOfItem(v.itens, itemId).value;
      assert v.AtualizarQuantidadeItem(itemId, n).value.itens == v.itens[i := v.itens[i].(quantidade := n)];
    }
  }

  lemma StatusChangesPreserveValid(v: VendaState, forma: FormaPagamento, obs: Option<string>)
    requires v.Valid()
    ensures v.Confirmar(forma).Ok? ==> v.Confirmar(forma).value.Valid()
    ensures v.Cancelar().Ok? ==> v.Cancelar().value.Valid()
    ensures v.AtualizarObservacao(obs).Valid()
  {
  }

  // ---------------------------------------------------------------------------
  // The sale as it lives in memory

  /** The states of a list of item objects. */
  function States(s: seq<ItemVenda>): (r: seq<ItemState>)
    reads s
    ensures |r| == |s| && forall k :: 0 <= k < |s| ==> r[k] == s[k].State()
  {
    seq(|s|, k reads s requires 0 <= k < |s| => s[k].State())
  }

  /** Appending an object appends its state. */
  lemma StatesAppend(s: seq<ItemVenda>, x: ItemVenda)
    ensures States(s + [x]) == States(s) + [x.State()]
  {
    assert forall k :: 0 <= k < |s| ==> (s + [x])[k] == s[k];
  }

  /** Line objects left untouched keep their states. */
  twostate lemma StatesFrame(s: seq<ItemVenda>)
    requires unchanged(s)
    ensures States(s) == old(States(s))
  {
  }

  /** A sale whose `Itens` is a list of `ItemVenda` objects changed in place. */
  class Venda {
    var id: Guid
    var clienteId: Guid
    var dataVenda: Instant
    var itens: seq<ItemVenda>
    var status: StatusVenda
    var formaPagamento: Option<FormaPagamento>
    var observacao: Option<string>

    /** The list never holds the same object twice. */
    predicate Valid()
      reads this
    {
      forall i, j :: 0 <= i < j < |itens| ==> itens[i] != itens[j]
    }

    function State(): VendaState
      reads this, itens
    {
      VendaState(id, clienteId, dataVenda, States(itens), status, formaPagamento, observacao)
    }

    /** `ValorTotal`. */
    function ValorTotal(): real
      reads this, itens
    {
      Total(States(itens))
    }

    /** A sale with the given fields and fresh line objects: how a stored sale is materialised. */
    constructor FromState(s: VendaState)
      ensures Valid() && State() == s
      ensures forall x :: x in itens ==> fresh(x)
    {
      var ls: seq<ItemVenda> := [];
      var k := 0;
      while k < |s.itens|
        invariant 0 <= k <= |s.itens| && |ls| == k
        invariant forall j :: 0 <= j < k ==> ls[j].State() == s.itens[j]
        invariant forall i, j :: 0 <= i < j < k ==> ls[i] != ls[j]
        invariant forall x :: x in ls ==> fresh(x)
      {
        var it := new ItemVenda.FromState(s.itens[k]);
        ls := ls + [it];
        k := k + 1;
      }
      id, clienteId, dataVenda, itens := s.id, s.clienteId, s.dataVenda, ls;
      status, formaPagamento, observacao := s.status, s.formaPagamento, s.observacao;
    }

    /** `new Venda(clienteId, observacao)`. */
    static method New(id: Guid, clienteId: Guid, now: Instant, observacao: Option<string>) returns (r: Result<Venda>)
      ensures OutcomeOf(r) == OutcomeOf(NovaVenda(id, clienteId, now, observacao))
      ensures r.Ok? ==> fresh(r.value) && r.value.Valid() && r.value.itens == [] &&
                        r.value.State() == NovaVenda(id, clienteId, now, observacao).value
    {
      var s := NovaVenda(id, clienteId, now, observacao);
      if s.Err? {
        return Err(s.error);
      }
      var v := new Venda.FromState(s.value);
      return Ok(v);
    }

    /** `AdicionarItem(produtoId, produtoNome, quantidade, precoUnitario)`. */
    method AdicionarItem(novoItemId: Guid, produtoId: Guid, produtoNome: string,
                         quantidade: int, precoUnitario: real) returns (o: Outcome)
      requires Valid()
      modifies this, set x | x in itens
      ensures Valid() && forall x :: x in itens ==> x in old(itens) || fresh(x)
      ensures o == OutcomeOf(old(State()).AdicionarItem(novoItemId, produtoId, produtoNome, quantidade, precoUnitario))
      ensures State() == (if o.Pass? then old(State()).AdicionarItem(novoItemId, produtoId, produtoNome, quantidade,
                                                                     precoUnitario).value
                          else old(State()))
    {
      if status != Pendente {
        return Fail(InvalidOperation(AddItemNotPending));
      }
      var idx := IndexOfProduto(States(itens), produtoId);
      if idx.Some? {
        var i := idx.value;
        o := SetLineQuantity(i, itens[i].quantidade + quantidade);
      } else {
        o := AppendLine(novoItemId, produtoId, produtoNome, quantidade, precoUnitario);
      }
    }

    /** `new ItemVenda(Id, ...)` followed by `Itens.Add`. */
    method AppendLine(novoItemId: Guid, produtoId: Guid, produtoNome: string,
                      quantidade: int, precoUnitario: real) returns (o: Outcome)
      requires Valid()
      modifies this
      ensures Valid() && forall x :: x in itens ==> x in old(itens) || fresh(x)
      ensures o == OutcomeOf(NewItem(novoItemId, id, produtoId, produtoNome, quantidade, precoUnitario))
      ensures State() == (if o.Pass? then
                            old(State()).(itens := old(States(itens)) +
                                                   [NewItem(novoItemId, id, produtoId, produtoNome, quantidade, precoUnitario).value])
                          else old(State()))
    {
      ghost var before := States(itens);
      var r := ItemVenda.New(novoItemId, id, produtoId, produtoNome, quantidade, precoUnitario);
      if r.Err? {
        return Fail(r.error);
      }
      StatesAppend(itens, r.value);
      itens := itens + [r.value];
      assert States(itens) == before + [r.value.State()];
      o := Pass;
    }

    /** `AtualizarQuantidade` called on the line object at position `i`: only that line changes. */
    method SetLineQuantity(i: nat, novaQuantidade: int) returns (o: Outcome)
      requires Valid() && i < |itens|
      modifies set x | x in itens
      ensures o == OutcomeOf(old(State().itens[i]).AtualizarQuantidade(novaQuantidade))
      ensures State() == (if o.Pass? then old(State()).(itens := old(States(itens))[i := old(itens[i].State()).(quantidade := novaQuantidade)])
                          else old(State()))
    {
      var it := itens[i];
      ghost var lines := States(itens);
      o := it.AtualizarQuantidade(novaQuantidade);
      UpdatedLine(lines, States(itens), i, it.State());
    }

    /** `RemoverItem(itemId)`: drops the line object from the list. */
    method RemoverItem(itemId: Guid) returns (o: Outcome)
      requires Valid()
      modifies this
      ensures Valid() && forall x :: x in itens ==> x in old(itens)
      ensures o == OutcomeOf(old(State()).RemoverItem(itemId))
      ensures State() == (if o.Pass? then old(State()).RemoverItem(itemId).value else old(State()))
    {
      if status != Pendente {
        return Fail(InvalidOperation(RemoveItemNotPending));
      }
      var lines := States(itens);
      var idx := IndexOfItem(lines, itemId);
      if idx.None? {
        return Fail(InvalidOperation(ItemNotFound));
      }
      var i := idx.value;
      itens := RemoveAt(itens, i);
      assert States(itens) == RemoveAt(lines, i);
      o := Pass;
    }

    /** `AtualizarQuantidadeItem(itemId, novaQuantidade)`: changes the line object in place. */
    method AtualizarQuantidadeItem(itemId: Guid, novaQuantidade: int) returns (o: Outcome)
      requires Valid()
      modifies set x | x in itens
      ensures Valid()
      ensures o == OutcomeOf(old(State()).AtualizarQuantidadeItem(itemId, novaQuantidade))
      ensures State() == (if o.Pass? then old(State()).AtualizarQuantidadeItem(itemId, novaQuantidade).value
                          else old(State()))
    {
      if status != Pendente {
        return Fail(InvalidOperation(UpdateItemNotPending));
      }
      var lines := States(itens);
      var idx := IndexOfItem(lines, itemId);
      if idx.None? {
        return Fail(InvalidOperation(ItemNotFound));
      }
      o := SetLineQuantity(idx.value, novaQuantidade);
    }

    /** `Confirmar(formaPagamento)`. */
    method Confirmar(forma: FormaPagamento) returns (o: Outcome)
      modifies this
      ensures itens == old(itens)
      ensures o == OutcomeOf(old(State()).Confirmar(forma))
      ensures State() == (if o.Pass? then old(State()).Confirmar(forma).value else old(State()))
    {
      if status != Pendente {
        return Fail(InvalidOperation(ConfirmNotPending));
      }
      if |itens| == 0 {
        return Fail(InvalidOperation(EmptySale));
      }
      formaPagamento := Some(forma);
      status := Confirmada;
      StatesFrame(itens);
      return Pass;
    }

    /** `Cancelar()`. */
    method Cancelar() returns (o: Outcome)
      modifies this
      ensures itens == old(itens)
      ensures o == OutcomeOf(old(State()).Cancelar())
      ensures State() == (if o.Pass? then old(State()).Cancelar().value else old(State()))
    {
      if status == Cancelada {
        return Fail(InvalidOperation(AlreadyCancelled));
      }
      status := Cancelada;
      StatesFrame(itens);
      return Pass;
    }

    /** `AtualizarObservacao(novaObservacao)`. */
    method AtualizarObservacao(obs: Option<string>)
      modifies this
      ensures itens == old(itens)
      ensures State() == old(State()).AtualizarObservacao(obs)
    {
      ghost var before := State();
      var t := TrimOpt(obs);
      observacao := t;
      StatesFrame(itens);
      assert State() == before.(observacao := t);
    }

    /** `PodeSerEditada()`. */
    method PodeSerEditada() returns (b: bool)
      ensures b <==> State().PodeSerEditada()
    {
      return status == Pendente;
    }
  }

  /** After one line object changed in place, the line states differ only there. */
  lemma UpdatedLine(before: seq<ItemState>, after: seq<ItemState>, i: nat, x: ItemState)
    requires |before| == |after| && i < |after| && after[i] == x
    requires forall k :: 0 <= k < |after| && k != i ==> after[k] == before[k]
    ensures after == before[i := x]
  {
  }
}
