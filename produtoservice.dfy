/** The product use cases (GerenciamentoDeVendas/Application/Services/ProdutoService.cs)
    over the unit of work. */
module ProdutoServiceOps {

  import opened Common
  import opened Text
  import opened ProdutoEntity
  import opened UnitOfWorkStore

  /** `Produtos.CodigoJaCadastradoAsync(codigo)`: some product has exactly this code. */
  predicate CodigoJaCadastrado(produtos: map<Guid, ProdutoState>, codigo: string)
  {
    exists k :: k in produtos && produtos[k].codigo == codigo
  }

  /** The lookup compares codes exactly, untrimmed: a stored code is found,
      and the same code with a leading space is not, since every stored
      product's code is trimmed. */
  lemma CodigoLookupIsExact(produtos: map<Guid, ProdutoState>, k: Guid)
    requires k in produtos
    requires forall j :: j in produtos ==> produtos[j].Valid()
    ensures CodigoJaCadastrado(produtos, produtos[k].codigo)
    ensures !CodigoJaCadastrado(produtos, " " + produtos[k].codigo)
  {
    var padded := " " + produtos[k].codigo;
    if j :| j in produtos && produtos[j].codigo == padded {
      assert false;
    }
  }

  // ---------------------------------------------------------------------------
  // What each use case does to the committed store

  /** `CriarAsync(dto)`, with the new product's `Guid.NewGuid()` passed in as `id`:
      the code is looked up as given, before the constructor trims it. */
  function CriarSpec(st: Store, id: Guid, codigo: string, nome: string, preco: real,
                     descricao: Option<string>, categoria: Option<string>, now: Instant): (r: Result<Store>)
    ensures CodigoJaCadastrado(st.produtos, codigo) ==> r == Err(InvalidOperation(CodeAlreadyRegistered))
    ensures r.Ok? ==> r.value == st.(produtos := r.value.produtos)
  {
    if CodigoJaCadastrado(st.produtos, codigo) then Err(InvalidOperation(CodeAlreadyRegistered))
    else
      var p :- NewProduto(id, codigo, nome, preco, descricao, categoria, now);
      Ok(st.(produtos := st.produtos[p.id := p]))
  }

  /** `AtualizarAsync(id, dto)`: name, description, price and category, in that order. */
  function AtualizarSpec(st: Store, id: Guid, nome: string, descricao: Option<string>, preco: real,
                         categoria: Option<string>): (r: Result<Store>)
    ensures id !in st.produtos ==> r == Err(InvalidOperation(ProductNotFound))
    ensures r.Ok? ==> r.value == st.(produtos := r.value.produtos)
  {
    if id !in st.produtos then Err(InvalidOperation(ProductNotFound))
    else
      var p1 :- st.produtos[id].AtualizarNome(nome);
      var p2 := p1.AtualizarDescricao(descricao);
      var p3 :- p2.AtualizarPreco(preco);
      Ok(st.(produtos := st.produtos[id := p3.AtualizarCategoria(categoria)]))
  }

  /** `AtivarAsync(id)`. */
  function AtivarSpec(st: Store, id: Guid): (r: Result<Store>)
    ensures r.Ok? <==> id in st.produtos
    ensures r.Err? ==> r.error == InvalidOperation(ProductNotFound)
    ensures r.Ok? ==> r.value == st.(produtos := st.produtos[id := st.produtos[id].Ativar()])
  {
    if id !in st.produtos then Err(InvalidOperation(ProductNotFound))
    else Ok(st.(produtos := st.produtos[id := st.produtos[id].Ativar()]))
  }

  /** `InativarAsync(id)`. */
  function InativarSpec(st: Store, id: Guid): (r: Result<Store>)
    ensures r.Ok? <==> id in st.produtos
    ensures r.Err? ==> r.error == InvalidOperation(ProductNotFound)
    ensures r.Ok? ==> r.value == st.(produtos := st.produtos[id := st.produtos[id].Inativar()])
  {
    if id !in st.produtos then Err(InvalidOperation(ProductNotFound))
    else Ok(st.(produtos := st.produtos[id := st.produtos[id].Inativar()]))
  }

  // ---------------------------------------------------------------------------
  // Properties

  /** Creation succeeds exactly for an unused code and input the constructor
      accepts, and stores one active product under its new id. */
  lemma CriarSemantics(st: Store, id: Guid, codigo: string, nome: string, preco: real,
                       d: Option<string>, c: Option<string>, now: Instant)
    ensures var r := CriarSpec(st, id, codigo, nome, preco, d, c, now);
            && (r.Ok? <==> !CodigoJaCadastrado(st.produtos, codigo) && !IsBlank(codigo) && !IsBlank(nome) && preco >= 0.0)
            && (r.Ok? ==> r.value.produtos == st.produtos[id := ProdutoState(id, Trim(codigo), Trim(nome), TrimOpt(d),
                                                                             preco, TrimOpt(c), true, now)])
            && (r.Ok? ==> r.value.produtos[id].Valid() && r.value.produtos[id].ativo)
  {
  }

  lemma UniqueCodesInsert(m: map<Guid, ProdutoState>, id: Guid, p: ProdutoState)
    requires UniqueCodes(m) && id !in m && !CodigoJaCadastrado(m, p.codigo)
    ensures UniqueCodes(m[id := p])
  {
  }

  /** Creation succeeds when the code is unused and the constructor accepts
      the input, and then stores the constructed product under its id. */
  lemma CriarStores(st: Store, id: Guid, codigo: string, nome: string, preco: real,
                    d: Option<string>, c: Option<string>, now: Instant)
    ensures var r := CriarSpec(st, id, codigo, nome, preco, d, c, now);
            var n := NewProduto(id, codigo, nome, preco, d, c, now);
            && (r.Ok? <==> !CodigoJaCadastrado(st.produtos, codigo) && n.Ok?)
            && (r.Ok? ==> r.value.produtos == st.produtos[id := n.value] && n.value.codigo == Trim(codigo))
  {
  }

  /** A code given without surrounding white space cannot be registered twice. */
  lemma CriarKeepsUniqueCodes(st: Store, id: Guid, codigo: string, nome: string, preco: real,
                              d: Option<string>, c: Option<string>, now: Instant)
    requires UniqueCodes(st.produtos) && id !in st.produtos && Trimmed(codigo)
    ensures var r := CriarSpec(st, id, codigo, nome, preco, d, c, now);
            r.Ok? ==> UniqueCodes(r.value.produtos)
  {
    CriarStores(st, id, codigo, nome, preco, d, c, now);
    if CriarSpec(st, id, codigo, nome, preco, d, c, now).Ok? {
      var p := NewProduto(id, codigo, nome, preco, d, c, now).value;
      TrimOfTrimmed(codigo);
      UniqueCodesInsert(st.produtos, id, p);
    }
  }

  /** One leading space is what `Trim` removes from a trimmed non-blank code. */
  lemma TrimPadded(code: string)
    requires !IsBlank(code) && Trimmed(code)
    ensures !IsBlank(" " + code) && Trim(" " + code) == code
  {
    TrimOfTrimmed(code);
    var padded := " " + code;
    assert padded[1..] == code;
    assert TrimStart(padded) == TrimStart(code);
    var i :| 0 <= i < |code| && !IsWhiteSpace(code[i]);
    assert padded[i + 1] == code[i];
  }

  /** A trimmed code padded with one space, unused as given, is accepted and
      stored without the space. */
  lemma PaddedCodeAccepted(st: Store, id: Guid, code: string, nome: string, preco: real, now: Instant)
    requires !IsBlank(code) && Trimmed(code)
    requires !CodigoJaCadastrado(st.produtos, " " + code)
    requires !IsBlank(nome) && preco >= 0.0
    ensures var r := CriarSpec(st, id, " " + code, nome, preco, None, None, now);
            r.Ok? && r.value.produtos == st.produtos[id := r.value.produtos[id]] && r.value.produtos[id].codigo == code
  {
    TrimPadded(code);
    CriarStores(st, id, " " + code, nome, preco, None, None, now);
  }

  /** The existence check compares the code as given while the product stores
      it trimmed, so a code padded with a space passes the service's own check
      and stages a second product under a code already in use. */
  lemma PaddedCodeStagesDuplicate(st: Store, id: Guid, k: Guid, nome: string, preco: real, now: Instant)
    requires k in st.produtos && id != k && st.produtos[k].Valid()
    requires !CodigoJaCadastrado(st.produtos, " " + st.produtos[k].codigo)
    requires !IsBlank(nome) && preco >= 0.0
    ensures var r := CriarSpec(st, id, " " + st.produtos[k].codigo, nome, preco, None, None, now);
            r.Ok? && k in r.value.produtos && id in r.value.produtos &&
            r.value.produtos[id].codigo == r.value.produtos[k].codigo
  {
    var code := st.produtos[k].codigo;
    PaddedCodeAccepted(st, id, code, nome, preco, now);
    var m := CriarSpec(st, id, " " + code, nome, preco, None, None, now).value.produtos;
    assert m[k] == st.produtos[k];
  }

  /** The database then refuses that commit: the unique index on the code
      makes `CommitAsync` throw, and no second product is stored. */
  lemma PaddedCodeIsRefused(st: Store, id: Guid, k: Guid, nome: string, preco: real, now: Instant)
    requires k in st.produtos && id != k && st.produtos[k].Valid()
    requires !CodigoJaCadastrado(st.produtos, " " + st.produtos[k].codigo)
    requires !IsBlank(nome) && preco >= 0.0
    ensures Saved(CriarSpec(st, id, " " + st.produtos[k].codigo, nome, preco, None, None, now)) ==
            Err(DbUpdate(ProdutoCodigoIndex))
  {
    PaddedCodeStagesDuplicate(st, id, k, nome, preco, now);
    var staged := CriarSpec(st, id, " " + st.produtos[k].codigo, nome, preco, None, None, now);
    CollisionRefused(staged.value, id, k);
  }

  /** Once committed, creating a product under a fresh id succeeds exactly
      when neither the code as given nor the code as stored is in use and the
      constructor accepts the input; a code that passes the service's check
      but is in use once trimmed is refused by the database. */
  lemma CriarSaved(st: Store, id: Guid, codigo: string, nome: string, preco: real,
                   d: Option<string>, c: Option<string>, now: Instant)
    requires Indexed(st) && id !in st.produtos
    ensures var staged := CriarSpec(st, id, codigo, nome, preco, d, c, now);
            var r := Saved(staged);
            && (r.Ok? <==> !CodigoJaCadastrado(st.produtos, codigo) && !CodigoJaCadastrado(st.produtos, Trim(codigo)) &&
                           NewProduto(id, codigo, nome, preco, d, c, now).Ok?)
            && (staged.Ok? && r.Err? ==> r == Err(DbUpdate(ProdutoCodigoIndex)))
  {
    CriarStores(st, id, codigo, nome, preco, d, c, now);
    InsertSaved(st, id, codigo, Trim(codigo), CriarSpec(st, id, codigo, nome, preco, d, c, now),
                NewProduto(id, codigo, nome, preco, d, c, now));
  }

  /** `CriarSaved` over the staged store and the constructor's result as values. */
  lemma InsertSaved(st: Store, id: Guid, codigo: string, t: string, staged: Result<Store>, n: Result<ProdutoState>)
    requires Indexed(st) && id !in st.produtos
    requires staged.Ok? <==> !CodigoJaCadastrado(st.produtos, codigo) && n.Ok?
    requires staged.Ok? ==> staged.value.produtos == st.produtos[id := n.value] && n.value.codigo == t
    requires staged.Ok? ==> staged.value == st.(produtos := staged.value.produtos)
    ensures var r := Saved(staged);
            && (r.Ok? <==> !CodigoJaCadastrado(st.produtos, codigo) && !CodigoJaCadastrado(st.produtos, t) && n.Ok?)
            && (staged.Ok? && r.Err? ==> r == Err(DbUpdate(ProdutoCodigoIndex)))
  {
    if staged.Ok? {
      if CodigoJaCadastrado(st.produtos, t) {
        var k :| k in st.produtos && st.produtos[k].codigo == t;
        assert k in staged.value.produtos && staged.value.produtos[k] == st.produtos[k];
        CollisionRefused(staged.value, id, k);
      } else {
        UniqueCodesInsert(st.produtos, id, n.value);
        SavedWhenIndexed(st, staged.value);
      }
    }
  }

  /** Two products with one code break the code index, whatever else the store holds. */
  lemma CollisionRefused(s: Store, a: Guid, b: Guid)
    requires a in s.produtos && b in s.produtos && a != b
    requires s.produtos[a].codigo == s.produtos[b].codigo
    ensures Saved(Ok(s)) == Err(DbUpdate(ProdutoCodigoIndex))
  {
    assert !UniqueCodes(s.produtos);
  }

  /** A new product table with unique codes, next to the stock table of a
      store the database accepted, is accepted too. */
  lemma SavedWhenIndexed(st: Store, s: Store)
    requires Indexed(st) && s.estoques == st.estoques && UniqueCodes(s.produtos)
    ensures Saved(Ok(s)) == Ok(s)
  {
  }

  /** Updating, activating and deactivating keep every code, so their commit
      always goes through on a store the database accepted. */
  lemma EditsSaved(st: Store, id: Guid, nome: string, d: Option<string>, preco: real, c: Option<string>)
    requires Indexed(st)
    ensures Saved(AtualizarSpec(st, id, nome, d, preco, c)) == AtualizarSpec(st, id, nome, d, preco, c)
    ensures Saved(AtivarSpec(st, id)) == AtivarSpec(st, id)
    ensures Saved(InativarSpec(st, id)) == InativarSpec(st, id)
  {
    AtualizarSemantics(st, id, nome, d, preco, c);
    if id in st.produtos {
      var p := st.produtos[id];
      SameCodeKeepsUnique(st.produtos, id, p.Ativar());
      SameCodeKeepsUnique(st.produtos, id, p.Inativar());
      var r := AtualizarSpec(st, id, nome, d, preco, c);
      if r.Ok? {
        SameCodeKeepsUnique(st.produtos, id, r.value.produtos[id]);
        assert r.value.produtos == st.produtos[id := r.value.produtos[id]];
      }
    }
  }

  lemma SameCodeKeepsUnique(m: map<Guid, ProdutoState>, id: Guid, p: ProdutoState)
    requires UniqueCodes(m) && id in m && p.codigo == m[id].codigo
    ensures UniqueCodes(m[id := p])
  {
  }

  /** Updating succeeds exactly for a known product, a non-blank name and a
      non-negative price; the name is checked first; a success replaces the
      four fields and keeps the product valid, its code and its flag. */
  lemma AtualizarSemantics(st: Store, id: Guid, nome: string, d: Option<string>, preco: real, c: Option<string>)
    ensures var r := AtualizarSpec(st, id, nome, d, preco, c);
            && (r.Ok? <==> id in st.produtos && !IsBlank(nome) && preco >= 0.0)
            && (id in st.produtos && IsBlank(nome) ==> r == Err(ArgumentError("novoNome")))
            && (id in st.produtos && !IsBlank(nome) && preco < 0.0 ==> r == Err(ArgumentError("novoPreco")))
            && (r.Ok? ==> r.value.produtos == st.produtos[id := st.produtos[id].(nome := Trim(nome),
                                                                                 descricao := TrimOpt(d),
                                                                                 precoUnitario := preco,
                                                                                 categoria := TrimOpt(c))])
  {
  }

  lemma AtualizarPreservesValid(st: Store, id: Guid, nome: string, d: Option<string>, preco: real, c: Option<string>)
    requires id in st.produtos && st.produtos[id].Valid()
    ensures var r := AtualizarSpec(st, id, nome, d, preco, c);
            r.Ok? ==> r.value.produtos[id].Valid() && r.value.produtos[id].codigo == st.produtos[id].codigo
  {
    AtualizarSemantics(st, id, nome, d, preco, c);
    if AtualizarSpec(st, id, nome, d, preco, c).Ok? {
      TrimOfNonBlank(nome);
    }
  }

  /** Activating and deactivating through the service are idempotent. */
  lemma ActivationIdempotent(st: Store, id: Guid)
    requires id in st.produtos
    ensures AtivarSpec(AtivarSpec(st, id).value, id) == AtivarSpec(st, id)
    ensures InativarSpec(InativarSpec(st, id).value, id) == InativarSpec(st, id)
    ensures AtivarSpec(InativarSpec(st, id).value, id) == AtivarSpec(st, id)
  {
    var p := st.produtos[id];
    ActivationFlags(p);
    assert st.produtos[id := p.Ativar()][id := p.Ativar().Ativar()] == st.produtos[id := p.Ativar()];
    assert st.produtos[id := p.Inativar()][id := p.Inativar().Inativar()] == st.produtos[id := p.Inativar()];
    assert st.produtos[id := p.Inativar()][id := p.Inativar().Ativar()] == st.produtos[id := p.Ativar()];
  }

  // ---------------------------------------------------------------------------
  // The use cases

  /** `CriarAsync(dto)`: returns the new product. */
  method CriarAsync(uow: UnitOfWork, id: Guid, codigo: string, nome: string, preco: real,
                    descricao: Option<string>, categoria: Option<string>, now: Instant) returns (r: Result<ProdutoState>)
    modifies uow
    ensures var spec := Saved(CriarSpec(old(uow.committed), id, codigo, nome, preco, descricao, categoria, now));
            && OutcomeOf(r) == OutcomeOf(spec)
            && uow.committed == (if spec.Ok? then spec.value else old(uow.committed))
            && (r.Ok? ==> id in spec.value.produtos && r.value == spec.value.produtos[id])
  {
    var st := uow.committed;
    if CodigoJaCadastrado(st.produtos, codigo) {
      return Err(InvalidOperation(CodeAlreadyRegistered));
    }
    var p := Produto.New(id, codigo, nome, preco, descricao, categoria, now);
    if p.Err? {
      return Err(p.error);
    }
    var row := p.value.State();
    var saved := uow.Commit(st.(produtos := st.produtos[row.id := row]));
    if saved.Fail? {
      return Err(saved.error);
    }
    return Ok(row);
  }

  /** `AtualizarAsync(id, dto)`: returns the updated product. */
  method AtualizarAsync(uow: UnitOfWork, id: Guid, nome: string, descricao: Option<string>, preco: real,
                        categoria: Option<string>) returns (r: Result<ProdutoState>)
    modifies uow
    ensures var spec := Saved(AtualizarSpec(old(uow.committed), id, nome, descricao, preco, categoria));
            && OutcomeOf(r) == OutcomeOf(spec)
            && uow.committed == (if spec.Ok? then spec.value else old(uow.committed))
  {
    var st := uow.committed;
    if id !in st.produtos {
      return Err(InvalidOperation(ProductNotFound));
    }
    var produto := new Produto.FromState(st.produtos[id]);
    var o := produto.AtualizarNome(nome);
    if o.Fail? {
      return Err(o.error);
    }
    produto.AtualizarDescricao(descricao);
    o := produto.AtualizarPreco(preco);
    if o.Fail? {
      return Err(o.error);
    }
    produto.AtualizarCategoria(categoria);
    var row := produto.State();
    var saved := uow.Commit(st.(produtos := st.produtos[id := row]));
    if saved.Fail? {
      return Err(saved.error);
    }
    return Ok(row);
  }

  /** `AtivarAsync(id)`. */
  method AtivarAsync(uow: UnitOfWork, id: Guid) returns (o: Outcome)
    modifies uow
    ensures var spec := Saved(AtivarSpec(old(uow.committed), id));
            o == OutcomeOf(spec) && uow.committed == (if spec.Ok? then spec.value else old(uow.committed))
  {
    var st := uow.committed;
    if id !in st.produtos {
      return Fail(InvalidOperation(ProductNotFound));
    }
    var produto := new Produto.FromState(st.produtos[id]);
    produto.Ativar();
    o := uow.Commit(st.(produtos := st.produtos[id := produto.State()]));
  }

  /** `InativarAsync(id)`. */
  method InativarAsync(uow: UnitOfWork, id: Guid) returns (o: Outcome)
    modifies uow
    ensures var spec := Saved(InativarSpec(old(uow.committed), id));
            o == OutcomeOf(spec) && uow.committed == (if spec.Ok? then spec.value else old(uow.committed))
  {
    var st := uow.committed;
    if id !in st.produtos {
      return Fail(InvalidOperation(ProductNotFound));
    }
    var produto := new Produto.FromState(st.produtos[id]);
    produto.Inativar();
    o := uow.Commit(st.(produtos := st.produtos[id := produto.State()]));
  }

  /** `CodigoJaCadastradoAsync(codigo)`: reads, never commits. */
  method CodigoJaCadastradoAsync(uow: UnitOfWork, codigo: string) returns (b: bool)
    ensures b <==> exists k :: k in uow.committed.produtos && uow.committed.produtos[k].codigo == codigo
  {
    b := CodigoJaCadastrado(uow.committed.produtos, codigo);
  }
}
