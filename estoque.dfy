/** The Estoque entity (GerenciamentoDeVendas/Domain/Entities/Estoque.cs): the stock
    record of one product, a non-negative counter with guarded increase and decrease. */
module EstoqueEntity {

  import opened Common
  import opened Text

  /** The fields of a stock record. `DataUltimaAtualizacao` is the clock value
      of the last successful change. */
  datatype EstoqueState = EstoqueState(
    id: Guid,
    produtoId: Guid,
    quantidade: int,
    quantidadeMinima: int,
    localizacao: Option<string>,
    dataUltimaAtualizacao: Instant)
  {
    /** What the constructor establishes and every method keeps. */
    predicate Valid()
    {
      produtoId != EmptyGuid && quantidade >= 0 && quantidadeMinima >= 0
    }

    /** `AdicionarQuantidade(quantidade)`. */
    function AdicionarQuantidade(q: int, now: Instant): (r: Result<EstoqueState>)
      ensures r.Ok? <==> q > 0
      ensures r.Ok? ==> r.value == this.(quantidade := quantidade + q, dataUltimaAtualizacao := now)
      ensures r.Err? ==> r.error == ArgumentError("quantidade")
    {
      if q <= 0 then Err(ArgumentError("quantidade"))
      else Ok(this.(quantidade := quantidade + q, dataUltimaAtualizacao := now))
    }

    /** `RemoverQuantidade(quantidade)`: the argument is checked before the stock. */
    function RemoverQuantidade(q: int, now: Instant): (r: Result<EstoqueState>)
      ensures r.Ok? <==> 0 < q <= quantidade
      ensures r.Ok? ==> r.value == this.(quantidade := quantidade - q, dataUltimaAtualizacao := now)
      ensures q <= 0 ==> r == Err(ArgumentError("quantidade"))
      ensures q > quantidade && q > 0 ==> r == Err(InvalidOperation(InsufficientStock))
    {
      if q <= 0 then Err(ArgumentError("quantidade"))
      else if q > quantidade then Err(InvalidOperation(InsufficientStock))
      else Ok(this.(quantidade := quantidade - q, dataUltimaAtualizacao := now))
    }

    /** `EstaAbaixoDoMinimo()`. */
    predicate EstaAbaixoDoMinimo()
    {
      quantidade < quantidadeMinima
    }

    /** `TemEstoqueDisponivel(quantidadeDesejada)`. */
    predicate TemEstoqueDisponivel(quantidadeDesejada: int)
    {
      quantidade >= quantidadeDesejada
    }

    /** `AtualizarQuantidadeMinima(novaQuantidadeMinima)`. */
    function AtualizarQuantidadeMinima(n: int, now: Instant): (r: Result<EstoqueState>)
      ensures r.Ok? <==> n >= 0
      ensures r.Ok? ==> r.value == this.(quantidadeMinima := n, dataUltimaAtualizacao := now)
      ensures r.Err? ==> r.error == ArgumentError("novaQuantidadeMinima")
    {
      if n < 0 then Err(ArgumentError("novaQuantidadeMinima"))
      else Ok(this.(quantidadeMinima := n, dataUltimaAtualizacao := now))
    }

    /** `AtualizarLocalizacao(novaLocalizacao)`: never throws. */
    function AtualizarLocalizacao(loc: Option<string>, now: Instant): (r: EstoqueState)
      ensures r.localizacao == TrimOpt(loc) && r.dataUltimaAtualizacao == now
      ensures r.(localizacao := localizacao, dataUltimaAtualizacao := dataUltimaAtualizacao) == this
    {
      this.(localizacao := TrimOpt(loc), dataUltimaAtualizacao := now)
    }
  }

  /** `new Estoque(produtoId, quantidadeInicial, quantidadeMinima, localizacao)`,
      with `Guid.NewGuid()` and `DateTime.Now` passed in. */
  function NewEstoque(id: Guid, produtoId: Guid, quantidadeInicial: int, quantidadeMinima: int,
                      localizacao: Option<string>, now: Instant): (r: Result<EstoqueState>)
    ensures r.Ok? <==> produtoId != EmptyGuid && quantidadeInicial >= 0 && quantidadeMinima >= 0
    ensures r.Ok? ==> (r.value.Valid() &&
              r.value == EstoqueState(id, produtoId, quantidadeInicial, quantidadeMinima, TrimOpt(localizacao), now))
    ensures produtoId == EmptyGuid ==> r == Err(ArgumentError("produtoId"))
    ensures produtoId != EmptyGuid && quantidadeInicial < 0 ==> r == Err(ArgumentError("quantidadeInicial"))
    ensures (produtoId != EmptyGuid && quantidadeInicial >= 0 && quantidadeMinima < 0) ==>
              r == Err(ArgumentError("quantidadeMinima"))
  {
    if produtoId == EmptyGuid then Err(ArgumentError("produtoId"))
    else if quantidadeInicial < 0 then Err(ArgumentError("quantidadeInicial"))
    else if quantidadeMinima < 0 then Err(ArgumentError("quantidadeMinima"))
    else Ok(EstoqueState(id, produtoId, quantidadeInicial, quantidadeMinima, TrimOpt(localizacao), now))
  }

  /** Every method keeps the record valid: the counter never goes negative. */
  lemma OperationsPreserveValid(s: EstoqueState, q: int, loc: Option<string>, now: Instant)
    requires s.Valid()
    ensures s.AdicionarQuantidade(q, now).Ok? ==> s.AdicionarQuantidade(q, now).value.Valid()
    ensures s.RemoverQuantidade(q, now).Ok? ==> s.RemoverQuantidade(q, now).value.Valid()
    ensures s.AtualizarQuantidadeMinima(q, now).Ok? ==> s.AtualizarQuantidadeMinima(q, now).value.Valid()
    ensures s.AtualizarLocalizacao(loc, now).Valid()
  {
  }

  /** A positive removal fails exactly when the stock on hand is not enough. */
  lemma RemoverFailsIffUnavailable(s: EstoqueState, q: int, now: Instant)
    requires q > 0
    ensures s.RemoverQuantidade(q, now).Err? <==> !s.TemEstoqueDisponivel(q)
    ensures s.RemoverQuantidade(q, now).Err? ==> s.RemoverQuantidade(q, now).error == InvalidOperation(InsufficientStock)
  {
  }

  /** Removing and then adding back the same amount restores the quantity. */
  lemma RemoverThenAdicionarRestores(s: EstoqueState, q: int, t1: Instant, t2: Instant)
    requires s.RemoverQuantidade(q, t1).Ok?
    ensures s.RemoverQuantidade(q, t1).value.AdicionarQuantidade(q, t2) == Ok(s.(dataUltimaAtualizacao := t2))
  {
  }

  /** On a valid record, adding and then removing the same amount restores the quantity. */
  lemma AdicionarThenRemoverRestores(s: EstoqueState, q: int, t1: Instant, t2: Instant)
    requires s.Valid() && s.AdicionarQuantidade(q, t1).Ok?
    ensures s.AdicionarQuantidade(q, t1).value.RemoverQuantidade(q, t2) == Ok(s.(dataUltimaAtualizacao := t2))
  {
  }

  /** No method changes the identity of the record or the product it belongs to. */
  lemma IdentityIsFixed(s: EstoqueState, q: int, loc: Option<string>, now: Instant)
    ensures s.AdicionarQuantidade(q, now).Ok? ==>
              s.AdicionarQuantidade(q, now).value.id == s.id &&
              s.AdicionarQuantidade(q, now).value.produtoId == s.produtoId
    ensures s.RemoverQuantidade(q, now).Ok? ==>
              s.RemoverQuantidade(q, now).value.id == s.id &&
              s.RemoverQuantidade(q, now).value.produtoId == s.produtoId
    ensures s.AtualizarQuantidadeMinima(q, now).Ok? ==>
              s.AtualizarQuantidadeMinima(q, now).value.id == s.id &&
              s.AtualizarQuantidadeMinima(q, now).value.produtoId == s.produtoId
    ensures s.AtualizarLocalizacao(loc, now).id == s.id && s.AtualizarLocalizacao(loc, now).produtoId == s.produtoId
  {
  }

  /** A stock record as it lives in memory. */
  class Estoque {
    var id: Guid
    var produtoId: Guid
    var quantidade: int
    var quantidadeMinima: int
    var localizacao: Option<string>
    var dataUltimaAtualizacao: Instant

    function State(): EstoqueState
      reads this
    {
      EstoqueState(id, produtoId, quantidade, quantidadeMinima, localizacao, dataUltimaAtualizacao)
    }

    /** A record with the given fields: how a stored record is materialised. */
    constructor FromState(s: EstoqueState)
      ensures State() == s
    {
      id, produtoId, quantidade := s.id, s.produtoId, s.quantidade;
      quantidadeMinima, localizacao, dataUltimaAtualizacao := s.quantidadeMinima, s.localizacao, s.dataUltimaAtualizacao;
    }

    /** `new Estoque(...)`: a fresh record, or the exception of the first failed check. */
    static method New(id: Guid, produtoId: Guid, quantidadeInicial: int, quantidadeMinima: int,
                      localizacao: Option<string>, now: Instant) returns (r: Result<Estoque>)
      ensures OutcomeOf(r) == OutcomeOf(NewEstoque(id, produtoId, quantidadeInicial, quantidadeMinima, localizacao, now))
      ensures r.Ok? ==> fresh(r.value) &&
                        r.value.State() == NewEstoque(id, produtoId, quantidadeInicial, quantidadeMinima, localizacao, now).value
    {
      var s := NewEstoque(id, produtoId, quantidadeInicial, quantidadeMinima, localizacao, now);
      if s.Err? {
        return Err(s.error);
      }
      var e := new Estoque.FromState(s.value);
      return Ok(e);
    }

    /** `AdicionarQuantidade(quantidade)`: a rejected call changes no field. */
    method AdicionarQuantidade(q: int, now: Instant) returns (o: Outcome)
      modifies this
      ensures o == OutcomeOf(old(State()).AdicionarQuantidade(q, now))
      ensures State() == (if o.Pass? then old(State()).AdicionarQuantidade(q, now).value else old(State()))
    {
      if q <= 0 {
        return Fail(ArgumentError("quantidade"));
      }
      quantidade := quantidade + q;
      dataUltimaAtualizacao := now;
      return Pass;
    }

    /** `RemoverQuantidade(quantidade)`: a rejected call changes no field. */
    method RemoverQuantidade(q: int, now: Instant) returns (o: Outcome)
      modifies this
      ensures o == OutcomeOf(old(State()).RemoverQuantidade(q, now))
      ensures State() == (if o.Pass? then old(State()).RemoverQuantidade(q, now).value else old(State()))
    {
      if q <= 0 {
        return Fail(ArgumentError("quantidade"));
      }
      if q > quantidade {
        return Fail(InvalidOperation(InsufficientStock));
      }
      quantidade := quantidade - q;
      dataUltimaAtualizacao := now;
      return Pass;
    }

    /** `EstaAbaixoDoMinimo()`. */
    method EstaAbaixoDoMinimo() returns (b: bool)
      ensures b <==> State().EstaAbaixoDoMinimo()
    {
      return quantidade < quantidadeMinima;
    }

    /** `TemEstoqueDisponivel(quantidadeDesejada)`. */
    method TemEstoqueDisponivel(quantidadeDesejada: int) returns (b: bool)
      ensures b <==> State().TemEstoqueDisponivel(quantidadeDesejada)
    {
      return quantidade >= quantidadeDesejada;
    }

    /** `AtualizarQuantidadeMinima(novaQuantidadeMinima)`: a rejected call changes no field. */
    method AtualizarQuantidadeMinima(n: int, now: Instant) returns (o: Outcome)
      modifies this
      ensures o == OutcomeOf(old(State()).AtualizarQuantidadeMinima(n, now))
      ensures State() == (if o.Pass? then old(State()).AtualizarQuantidadeMinima(n, now).value else old(State()))
    {
      if n < 0 {
        return Fail(ArgumentError("novaQuantidadeMinima"));
      }
      quantidadeMinima := n;
      dataUltimaAtualizacao := now;
      return Pass;
    }

    /** `AtualizarLocalizacao(novaLocalizacao)`. */
    method AtualizarLocalizacao(loc: Option<string>, now: Instant)
      modifies this
      ensures State() == old(State()).AtualizarLocalizacao(loc, now)
    {
      localizacao := TrimOpt(loc);
      dataUltimaAtualizacao := now;
    }
  }
}
