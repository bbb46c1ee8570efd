/** The ItemVenda entity (GerenciamentoDeVendas/Domain/Entities/ItemVenda.cs): one
    line of a sale, holding a snapshot of the product's name and price. */
module ItemVendaEntity {

  import opened Common
  import opened Text

  /** The fields of an item: `Id`, `VendaId`, `ProdutoId`, `ProdutoNome`,
      `Quantidade` and `PrecoUnitario` (a `decimal`, exact, so a real here). */
  datatype ItemState = ItemState(
    id: Guid,
    vendaId: Guid,
    produtoId: Guid,
    produtoNome: string,
    quantidade: int,
    precoUnitario: real)
  {
    /** What every item built by the constructor and kept by its methods satisfies. */
    predicate Valid()
    {
      vendaId != EmptyGuid && produtoId != EmptyGuid && !IsBlank(produtoNome) &&
      quantidade > 0 && precoUnitario >= 0.0
    }

    /** `Subtotal => Quantidade * PrecoUnitario`. */
    function Subtotal(): real
    {
      quantidade as real * precoUnitario
    }

    /** `AtualizarQuantidade(novaQuantidade)`: only a positive quantity is accepted,
        and nothing but the quantity changes. */
    function AtualizarQuantidade(novaQuantidade: int): (r: Result<ItemState>)
      ensures r.Ok? <==> novaQuantidade > 0
      ensures r.Ok? ==> r.value == this.(quantidade := novaQuantidade)
      ensures r.Err? ==> r.error == ArgumentError("novaQuantidade")
    {
      if novaQuantidade <= 0 then Err(ArgumentError("novaQuantidade"))
      else Ok(this.(quantidade := novaQuantidade))
    }

    /** `AssociarVenda(vendaId)`: moves the item to another sale, never to `Guid.Empty`. */
    function AssociarVenda(novaVendaId: Guid): (r: Result<ItemState>)
      ensures r.Ok? <==> novaVendaId != EmptyGuid
      ensures r.Ok? ==> r.value == this.(vendaId := novaVendaId)
      ensures r.Err? ==> r.error == ArgumentError("vendaId")
    {
      if novaVendaId == EmptyGuid then Err(ArgumentError("vendaId"))
      else Ok(this.(vendaId := novaVendaId))
    }
  }

  /** `new ItemVenda(vendaId, produtoId, produtoNome, quantidade, precoUnitario)`,
      with `Guid.NewGuid()` passed in as `id`: the checks run in this order and
      the first that fails names its parameter. */
  function NewItem(id: Guid, vendaId: Guid, produtoId: Guid, produtoNome: string,
                   quantidade: int, precoUnitario: real): (r: Result<ItemState>)
    ensures r.Ok? <==>
              vendaId != EmptyGuid && produtoId != EmptyGuid && !IsBlank(produtoNome) &&
              quantidade > 0 && precoUnitario >= 0.0
    ensures r.Ok? ==>
              r.value.Valid() &&
              r.value == ItemState(id, vendaId, produtoId, Trim(produtoNome), quantidade, precoUnitario)
    ensures vendaId == EmptyGuid ==> r == Err(ArgumentError("vendaId"))
    ensures vendaId != EmptyGuid && produtoId == EmptyGuid ==> r == Err(ArgumentError("produtoId"))
    ensures (vendaId != EmptyGuid && produtoId != EmptyGuid && IsBlank(produtoNome)) ==>
              r == Err(ArgumentError("produtoNome"))
    ensures (vendaId != EmptyGuid && produtoId != EmptyGuid && !IsBlank(produtoNome) && quantidade <= 0) ==>
              r == Err(ArgumentError("quantidade"))
    ensures (vendaId != EmptyGuid && produtoId != EmptyGuid && !IsBlank(produtoNome) && quantidade > 0 &&
             precoUnitario < 0.0) ==> r == Err(ArgumentError("precoUnitario"))
  {
    if vendaId == EmptyGuid then Err(ArgumentError("vendaId"))
    else if produtoId == EmptyGuid then Err(ArgumentError("produtoId"))
    else if IsBlank(produtoNome) then Err(ArgumentError("produtoNome"))
    else if quantidade <= 0 then Err(ArgumentError("quantidade"))
    else if precoUnitario < 0.0 then Err(ArgumentError("precoUnitario"))
    else Ok(ItemState(id, vendaId, produtoId, Trim(produtoNome), quantidade, precoUnitario))
  }

  /** The methods keep an item valid. */
  lemma OperationsPreserveValid(s: ItemState, n: int, v: Guid)
    requires s.Valid()
    ensures s.AtualizarQuantidade(n).Ok? ==> s.AtualizarQuantidade(n).value.Valid()
    ensures s.AssociarVenda(v).Ok? ==> s.AssociarVenda(v).value.Valid()
  {
  }

  /** The subtotal of a valid item is never negative and grows with the quantity. */
  lemma SubtotalBounds(s: ItemState, n: int)
    requires s.Valid() && n >= s.quantidade
    ensures 0.0 <= s.Subtotal() <= s.(quantidade := n).Subtotal()
  {
    assert s.quantidade as real <= n as real;
    assert s.quantidade as real * s.precoUnitario <= n as real * s.precoUnitario;
  }

  /** An item as it lives in memory: its methods change its fields in place. */
  class ItemVenda {
    var id: Guid
    var vendaId: Guid
    var produtoId: Guid
    var produtoNome: string
    var quantidade: int
    var precoUnitario: real

    function State(): ItemState
      reads this
    {
      ItemState(id, vendaId, produtoId, produtoNome, quantidade, precoUnitario)
    }

    /** An item with the given fields: how a stored item is materialised. */
    constructor FromState(s: ItemState)
      ensures State() == s
    {
      id, vendaId, produtoId := s.id, s.vendaId, s.produtoId;
      produtoNome, quantidade, precoUnitario := s.produtoNome, s.quantidade, s.precoUnitario;
    }

    /** `new ItemVenda(...)`: a fresh item, or the exception of the first failed check. */
    static method New(id: Guid, vendaId: Guid, produtoId: Guid, produtoNome: string,
                      quantidade: int, precoUnitario: real) returns (r: Result<ItemVenda>)
      ensures OutcomeOf(r) == OutcomeOf(NewItem(id, vendaId, produtoId, produtoNome, quantidade, precoUnitario))
      ensures r.Ok? ==> fresh(r.value) &&
                        r.value.State() == NewItem(id, vendaId, produtoId, produtoNome, quantidade, precoUnitario).value
    {
      var s := NewItem(id, vendaId, produtoId, produtoNome, quantidade, precoUnitario);
      if s.Err? {
        return Err(s.error);
      }
      var item := new ItemVenda.FromState(s.value);
      return Ok(item);
    }

    /** `AtualizarQuantidade(novaQuantidade)`. */
    method AtualizarQuantidade(novaQuantidade: int) returns (o: Outcome)
      modifies this
      ensures o == OutcomeOf(old(State()).AtualizarQuantidade(novaQuantidade))
      ensures State() == (if o.Pass? then old(State()).AtualizarQuantidade(novaQuantidade).value else old(State()))
    {
      if novaQuantidade <= 0 {
        return Fail(ArgumentError("novaQuantidade"));
      }
      quantidade := novaQuantidade;
      return Pass;
    }

    /** `AssociarVenda(vendaId)`. */
    method AssociarVenda(novaVendaId: Guid) returns (o: Outcome)
      modifies this
      ensures o == OutcomeOf(old(State()).AssociarVenda(novaVendaId))
      ensures State() == (if o.Pass? then old(State()).AssociarVenda(novaVendaId).value else old(State()))
    {
      if novaVendaId == EmptyGuid {
        return Fail(ArgumentError("vendaId"));
      }
      vendaId := novaVendaId;
      return Pass;
    }
  }
}
