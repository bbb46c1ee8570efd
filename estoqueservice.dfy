/** The stock use cases (GerenciamentoDeVendas/Application/Services/EstoqueService.cs)
    over the unit of work: each loads one record, changes it through the entity
    and commits once; an exception commits nothing. */
module EstoqueServiceOps {

  import opened Common
  import opened Text
  import opened EstoqueEntity
  import opened UnitOfWorkStore

  // ---------------------------------------------------------------------------
  // What each use case does to the committed store

  /** `CriarAsync(dto)`, with the new record's `Guid.NewGuid()` passed in as `id`. */
  function CriarSpec(st: Store, id: Guid, produtoId: Guid, quantidadeInicial: int, quantidadeMinima: int,
                     localizacao: Option<string>, now: Instant): (r: Result<Store>)
    ensures produtoId !in st.produtos ==> r == Err(InvalidOperation(ProductNotFound))
    ensures produtoId in st.produtos && IndexOfEstoqueProduto(st.estoques, produtoId).Some? ==>
              r == Err(InvalidOperation(StockAlreadyExists))
    ensures r.Ok? ==> r.value == st.(estoques := r.value.estoques)
  {
    if produtoId !in st.produtos then Err(InvalidOperation(ProductNotFound))
    else if IndexOfEstoqueProduto(st.estoques, produtoId).Some? then Err(InvalidOperation(StockAlreadyExists))
    else
      var e :- NewEstoque(id, produtoId, quantidadeInicial, quantidadeMinima, localizacao, now);
      Ok(st.(estoques := st.estoques + [e]))
  }

  /** `AtualizarAsync(id, dto)`: the minimum first, then the location. */
  function AtualizarSpec(st: Store, id: Guid, quantidadeMinima: int, localizacao: Option<string>,
                         now: Instant): (r: Result<Store>)
    ensures IndexOfEstoqueId(st.estoques, id).None? ==> r == Err(InvalidOperation(StockNotFound))
    ensures r.Ok? ==> r.value == st.(estoques := r.value.estoques)
  {
    match IndexOfEstoqueId(st.estoques, id)
    case None => Err(InvalidOperation(StockNotFound))
    case Some(j) =>
      var e :- st.estoques[j].AtualizarQuantidadeMinima(quantidadeMinima, now);
      Ok(st.(estoques := st.estoques[j := e.AtualizarLocalizacao(localizacao, now)]))
  }

  /** `AdicionarQuantidadeAsync(dto)`. */
  function AdicionarQuantidadeSpec(st: Store, produtoId: Guid, q: int, now: Instant): (r: Result<Store>)
    ensures IndexOfEstoqueProduto(st.estoques, produtoId).None? ==> r == Err(InvalidOperation(StockNotFound))
    ensures r.Ok? ==> r.value == st.(estoques := r.value.estoques)
  {
    match IndexOfEstoqueProduto(st.estoques, produtoId)
    case None => Err(InvalidOperation(StockNotFound))
    case Some(j) =>
      var e :- st.estoques[j].AdicionarQuantidade(q, now);
      Ok(st.(estoques := st.estoques[j := e]))
  }

  /** `RemoverQuantidadeAsync(dto)`. */
  function RemoverQuantidadeSpec(st: Store, produtoId: Guid, q: int, now: Instant): (r: Result<Store>)
    ensures IndexOfEstoqueProduto(st.estoques, produtoId).None? ==> r == Err(InvalidOperation(StockNotFound))
    ensures r.Ok? ==> r.value == st.(estoques := r.value.estoques)
  {
    match IndexOfEstoqueProduto(st.estoques, produtoId)
    case None => Err(InvalidOperation(StockNotFound))
    case Some(j) =>
      var e :- st.estoques[j].RemoverQuantidade(q, now);
      Ok(st.(estoques := st.estoques[j := e]))
  }

  /** `TemEstoqueDisponivelAsync(produtoId, quantidade)`: false without a record. */
  predicate TemEstoqueDisponivelSpec(st: Store, produtoId: Guid, n: int)
  {
    match IndexOfEstoqueProduto(st.estoques, produtoId)
    case None => false
    case Some(j) => st.estoques[j].TemEstoqueDisponivel(n)
  }

  // ---------------------------------------------------------------------------
  // Properties

  /** Creation succeeds exactly for an existing product without a record and
      quantities the entity accepts, and appends that one record. */
  lemma CriarSemantics(st: Store, id: Guid, produtoId: Guid, qi: int, qm: int, loc: Option<string>, now: Instant)
    ensures var r := CriarSpec(st, id, produtoId, qi, qm, loc, now);
            && (r.Ok? <==> produtoId in st.produtos &&
                           (forall k :: 0 <= k < |st.estoques| ==> st.estoques[k].produtoId != produtoId) &&
                           produtoId != EmptyGuid && qi >= 0 && qm >= 0)
            && (r.Ok? ==> r.value.estoques == st.estoques + [EstoqueState(id, produtoId, qi, qm, TrimOpt(loc), now)])
  {
  }

  /** Creation never gives a product a second stock record. */
  lemma CriarKeepsOneRecordPerProduct(st: Store, id: Guid, produtoId: Guid, qi: int, qm: int,
                                      loc: Option<string>, now: Instant)
    requires OneRecordPerProduct(st.estoques)
    ensures var r := CriarSpec(st, id, produtoId, qi, qm, loc, now);
            r.Ok? ==> OneRecordPerProduct(r.value.estoques)
  {
  }

  /** Updating succeeds exactly for a known record and a non-negative minimum,
      and changes only that record's minimum, location and date. */
  lemma AtualizarSemantics(st: Store, id: Guid, qm: int, loc: Option<string>, now: Instant)
    ensures var r := AtualizarSpec(st, id, qm, loc, now);
            && (r.Ok? <==> IndexOfEstoqueId(st.estoques, id).Some? && qm >= 0)
            && (IndexOfEstoqueId(st.estoques, id).Some? && qm < 0 ==>
                  r == Err(ArgumentError("novaQuantidadeMinima")))
            && (r.Ok? ==> var j := IndexOfEstoqueId(st.estoques, id).value;
                          r.value.estoques == st.estoques[j := st.estoques[j].(quantidadeMinima := qm,
                                                                                localizacao := TrimOpt(loc),
                                                                                dataUltimaAtualizacao := now)])
  {
  }

  /** Adding succeeds exactly for a product with a record and a positive
      amount, and raises only that record's quantity, by exactly the amount. */
  lemma AdicionarQuantidadeSemantics(st: Store, produtoId: Guid, q: int, now: Instant)
    ensures var r := AdicionarQuantidadeSpec(st, produtoId, q, now);
            && (r.Ok? <==> IndexOfEstoqueProduto(st.estoques, produtoId).Some? && q > 0)
            && (r.Ok? ==> var j := IndexOfEstoqueProduto(st.estoques, produtoId).value;
                          r.value.estoques == st.estoques[j := st.estoques[j].(quantidade := st.estoques[j].quantidade + q,
                                                                                dataUltimaAtualizacao := now)])
  {
  }

  /** Removing succeeds exactly for a product with a record, a positive amount
      and enough stock, and lowers only that record's quantity, never below zero. */
  lemma RemoverQuantidadeSemantics(st: Store, produtoId: Guid, q: int, now: Instant)
    ensures var r := RemoverQuantidadeSpec(st, produtoId, q, now);
            && (r.Ok? <==> match IndexOfEstoqueProduto(st.estoques, produtoId)
                           case None => false
                           case Some(j) => 0 < q <= st.estoques[j].quantidade)
            && (r.Ok? ==> var j := IndexOfEstoqueProduto(st.estoques, produtoId).value;
                          && r.value.estoques == st.estoques[j := st.estoques[j].(quantidade := st.estoques[j].quantidade - q,
                                                                                   dataUltimaAtualizacao := now)]
                          && r.value.estoques[j].quantidade >= 0)
  {
  }

  /** The availability query is false without a record and otherwise compares
      the quantity on hand; a removal of a positive amount succeeds exactly when
      the query holds. */
  lemma TemEstoqueDisponivelSemantics(st: Store, produtoId: Guid, n: int, now: Instant)
    ensures (forall k :: 0 <= k < |st.estoques| ==> st.estoques[k].produtoId != produtoId) ==>
              !TemEstoqueDisponivelSpec(st, produtoId, n)
    ensures n > 0 ==> (RemoverQuantidadeSpec(st, produtoId, n, now).Ok? <==> TemEstoqueDisponivelSpec(st, produtoId, n))
  {
  }

  /** The movements rewrite rows in place, so a product never gains a record. */
  lemma MovementsKeepProducts(st: Store, id: Guid, produtoId: Guid, q: int, loc: Option<string>, now: Instant)
    ensures AtualizarSpec(st, id, q, loc, now).Ok? ==> SameProducts(AtualizarSpec(st, id, q, loc, now).value.estoques, st.estoques)
    ensures AdicionarQuantidadeSpec(st, produtoId, q, now).Ok? ==>
              SameProducts(AdicionarQuantidadeSpec(st, produtoId, q, now).value.estoques, st.estoques)
    ensures RemoverQuantidadeSpec(st, produtoId, q, now).Ok? ==>
              SameProducts(RemoverQuantidadeSpec(st, produtoId, q, now).value.estoques, st.estoques)
  {
  }

  /** On a store the database accepted, no stock use case breaks a unique
      index: creation adds a record only for a product without one, and the
      movements keep every row's product, so each commit goes through. */
  lemma UseCasesSaved(st: Store, id: Guid, produtoId: Guid, q: int, qm: int, loc: Option<string>, now: Instant)
    requires Indexed(st)
    ensures Saved(CriarSpec(st, id, produtoId, q, qm, loc, now)) == CriarSpec(st, id, produtoId, q, qm, loc, now)
    ensures Saved(AtualizarSpec(st, id, qm, loc, now)) == AtualizarSpec(st, id, qm, loc, now)
    ensures Saved(AdicionarQuantidadeSpec(st, produtoId, q, now)) == AdicionarQuantidadeSpec(st, produtoId, q, now)
    ensures Saved(RemoverQuantidadeSpec(st, produtoId, q, now)) == RemoverQuantidadeSpec(st, produtoId, q, now)
  {
    CriarKeepsOneRecordPerProduct(st, id, produtoId, q, qm, loc, now);
    MovementsKeepProducts(st, id, produtoId, qm, loc, now);
    MovementsKeepProducts(st, id, produtoId, q, loc, now);
    SavedWhenKeyed(st, AtualizarSpec(st, id, qm, loc, now));
    SavedWhenKeyed(st, AdicionarQuantidadeSpec(st, produtoId, q, now));
    SavedWhenKeyed(st, RemoverQuantidadeSpec(st, produtoId, q, now));
  }

  /** A removal followed by an addition of the same amount restores the table
      except for the record's date. */
  lemma RemoverThenAdicionarRestores(st: Store, produtoId: Guid, q: int, t1: Instant, t2: Instant)
    requires RemoverQuantidadeSpec(st, produtoId, q, t1).Ok?
    ensures var s1 := RemoverQuantidadeSpec(st, produtoId, q, t1).value;
            var j := IndexOfEstoqueProduto(st.estoques, produtoId).value;
            AdicionarQuantidadeSpec(s1, produtoId, q, t2) ==
              Ok(st.(estoques := st.estoques[j := st.estoques[j].(dataUltimaAtualizacao := t2)]))
  {
    var s1 := RemoverQuantidadeSpec(st, produtoId, q, t1).value;
    var j := IndexOfEstoqueProduto(st.estoques, produtoId).value;
    var e := st.estoques[j].RemoverQuantidade(q, t1).value;
    assert s1.estoques == st.estoques[j := e];
    LookupStable(s1.estoques, st.estoques, produtoId);
    assert e.AdicionarQuantidade(q, t2) == Ok(st.estoques[j].(dataUltimaAtualizacao := t2));
    assert st.estoques[j := e][j := st.estoques[j].(dataUltimaAtualizacao := t2)] ==
           st.estoques[j := st.estoques[j].(dataUltimaAtualizacao := t2)];
  }

  // ---------------------------------------------------------------------------
  // The use cases

  /** `CriarAsync(dto)`: returns the new record. */
  method CriarAsync(uow: UnitOfWork, id: Guid, produtoId: Guid, quantidadeInicial: int, quantidadeMinima: int,
                    localizacao: Option<string>, now: Instant) returns (r: Result<EstoqueState>)
    modifies uow
    ensures var spec := Saved(CriarSpec(old(uow.committed), id, produtoId, quantidadeInicial, quantidadeMinima, localizacao, now));
            && OutcomeOf(r) == OutcomeOf(spec)
            && uow.committed == (if spec.Ok? then spec.value else old(uow.committed))
            && (r.Ok? ==> r.value == spec.value.estoques[|spec.value.estoques| - 1])
  {
    var st := uow.committed;
    if produtoId !in st.produtos {
      return Err(InvalidOperation(ProductNotFound));
    }
    if IndexOfEstoqueProduto(st.estoques, produtoId).Some? {
      return Err(InvalidOperation(StockAlreadyExists));
    }
    var e := Estoque.New(id, produtoId, quantidadeInicial, quantidadeMinima, localizacao, now);
    if e.Err? {
      return Err(e.error);
    }
    var row := e.value.State();
    var saved := uow.Commit(st.(estoques := st.estoques + [row]));
    if saved.Fail? {
      return Err(saved.error);
    }
    return Ok(row);
  }

  /** `AtualizarAsync(id, dto)`: returns the updated record. */
  method AtualizarAsync(uow: UnitOfWork, id: Guid, quantidadeMinima: int, localizacao: Option<string>,
                        now: Instant) returns (r: Result<EstoqueState>)
    modifies uow
    ensures var spec := Saved(AtualizarSpec(old(uow.committed), id, quantidadeMinima, localizacao, now));
            && OutcomeOf(r) == OutcomeOf(spec)
            && uow.committed == (if spec.Ok? then spec.value else old(uow.committed))
  {
    var st := uow.committed;
    var idx := IndexOfEstoqueId(st.estoques, id);
    if idx.None? {
      return Err(InvalidOperation(StockNotFound));
    }
    var estoque := new Estoque.FromState(st.estoques[idx.value]);
    var o := estoque.AtualizarQuantidadeMinima(quantidadeMinima, now);
    if o.Fail? {
      return Err(o.error);
    }
    estoque.AtualizarLocalizacao(localizacao, now);
    var row := estoque.State();
    var saved := uow.Commit(st.(estoques := st.estoques[idx.value := row]));
    if saved.Fail? {
      return Err(saved.error);
    }
    return Ok(row);
  }

  /** `AdicionarQuantidadeAsync(dto)`: returns the updated record. */
  method AdicionarQuantidadeAsync(uow: UnitOfWork, produtoId: Guid, q: int, now: Instant) returns (r: Result<EstoqueState>)
    modifies uow
    ensures var spec := Saved(AdicionarQuantidadeSpec(old(uow.committed), produtoId, q, now));
            && OutcomeOf(r) == OutcomeOf(spec)
            && uow.committed == (if spec.Ok? then spec.value else old(uow.committed))
  {
    var st := uow.committed;
    var idx := IndexOfEstoqueProduto(st.estoques, produtoId);
    if idx.None? {
      return Err(InvalidOperation(StockNotFound));
    }
    var estoque := new Estoque.FromState(st.estoques[idx.value]);
    var o := estoque.AdicionarQuantidade(q, now);
    if o.Fail? {
      return Err(o.error);
    }
    var row := estoque.State();
    var saved := uow.Commit(st.(estoques := st.estoques[idx.value := row]));
    if saved.Fail? {
      return Err(saved.error);
    }
    return Ok(row);
  }

  /** `RemoverQuantidadeAsync(dto)`: returns the updated record. */
  method RemoverQuantidadeAsync(uow: UnitOfWork, produtoId: Guid, q: int, now: Instant) returns (r: Result<EstoqueState>)
    modifies uow
    ensures var spec := Saved(RemoverQuantidadeSpec(old(uow.committed), produtoId, q, now));
            && OutcomeOf(r) == OutcomeOf(spec)
            && uow.committed == (if spec.Ok? then spec.value else old(uow.committed))
  {
    var st := uow.committed;
    var idx := IndexOfEstoqueProduto(st.estoques, produtoId);
    if idx.None? {
      return Err(InvalidOperation(StockNotFound));
    }
    var estoque := new Estoque.FromState(st.estoques[idx.value]);
    var o := estoque.RemoverQuantidade(q, now);
    if o.Fail? {
      return Err(o.error);
    }
    var row := estoque.State();
    var saved := uow.Commit(st.(estoques := st.estoques[idx.value := row]));
    if saved.Fail? {
      return Err(saved.error);
    }
    return Ok(row);
  }

  /** `TemEstoqueDisponivelAsync(produtoId, quantidade)`: reads, never commits. */
  method TemEstoqueDisponivelAsync(uow: UnitOfWork, produtoId: Guid, n: int) returns (b: bool)
    ensures b == TemEstoqueDisponivelSpec(uow.committed, produtoId, n)
  {
    var idx := IndexOfEstoqueProduto(uow.committed.estoques, produtoId);
    if idx.None? {
      return false;
    }
    var estoque := new Estoque.FromState(uow.committed.estoques[idx.value]);
    b := estoque.TemEstoqueDisponivel(n);
  }
}
