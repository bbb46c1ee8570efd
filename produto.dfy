/** The Produto entity (GerenciamentoDeVendas/Domain/Entities/Produto.cs): a product of
    the catalogue, with a code, a name, a price and an active flag. */
module ProdutoEntity {

  import opened Common
  import opened Text

  /** The fields of a product. */
  datatype ProdutoState = ProdutoState(
    id: Guid,
    codigo: string,
    nome: string,
    descricao: Option<string>,
    precoUnitario: real,
    categoria: Option<string>,
    ativo: bool,
    dataCadastro: Instant)
  {
    /** What the constructor establishes and every method keeps: a non-blank
        trimmed code and name and a non-negative price. */
    predicate Valid()
    {
      !IsBlank(codigo) && Trimmed(codigo) &&
      !IsBlank(nome) && Trimmed(nome) &&
      precoUnitario >= 0.0
    }

    /** `Ativar()`. */
    function Ativar(): (r: ProdutoState)
      ensures r.ativo && r.(ativo := ativo) == this
    {
      this.(ativo := true)
    }

    /** `Inativar()`. */
    function Inativar(): (r: ProdutoState)
      ensures !r.ativo && r.(ativo := ativo) == this
    {
      this.(ativo := false)
    }

    /** `AtualizarPreco(novoPreco)`. */
    function AtualizarPreco(novoPreco: real): (r: Result<ProdutoState>)
      ensures r.Ok? <==> novoPreco >= 0.0
      ensures r.Ok? ==> r.value == this.(precoUnitario := novoPreco)
      ensures r.Err? ==> r.error == ArgumentError("novoPreco")
    {
      if novoPreco < 0.0 then Err(ArgumentError("novoPreco"))
      else Ok(this.(precoUnitario := novoPreco))
    }

    /** `AtualizarNome(novoNome)`: the name is stored trimmed. */
    function AtualizarNome(novoNome: string): (r: Result<ProdutoState>)
      ensures r.Ok? <==> !IsBlank(novoNome)
      ensures r.Ok? ==> r.value == this.(nome := Trim(novoNome))
      ensures r.Err? ==> r.error == ArgumentError("novoNome")
    {
      if IsBlank(novoNome) then Err(ArgumentError("novoNome"))
      else Ok(this.(nome := Trim(novoNome)))
    }

    /** `AtualizarDescricao(novaDescricao)`: null is accepted. */
    function AtualizarDescricao(d: Option<string>): (r: ProdutoState)
      ensures r.descricao == TrimOpt(d) && r.(descricao := descricao) == this
    {
      this.(descricao := TrimOpt(d))
    }

    /** `AtualizarCategoria(novaCategoria)`: null is accepted. */
    function AtualizarCategoria(c: Option<string>): (r: ProdutoState)
      ensures r.categoria == TrimOpt(c) && r.(categoria := categoria) == this
    {
      this.(categoria := TrimOpt(c))
    }
  }

  /** `new Produto(codigo, nome, precoUnitario, descricao, categoria)`, with
      `Guid.NewGuid()` and `DateTime.Now` passed in. */
  function NewProduto(id: Guid, codigo: string, nome: string, precoUnitario: real,
                      descricao: Option<string>, categoria: Option<string>, now: Instant): (r: Result<ProdutoState>)
    ensures r.Ok? <==> !IsBlank(codigo) && !IsBlank(nome) && precoUnitario >= 0.0
    ensures r.Ok? ==> (r.value.Valid() && r.value.ativo &&
              r.value == ProdutoState(id, Trim(codigo), Trim(nome), TrimOpt(descricao), precoUnitario,
                                      TrimOpt(categoria), true, now))
    ensures IsBlank(codigo) ==> r == Err(ArgumentError("codigo"))
    ensures !IsBlank(codigo) && IsBlank(nome) ==> r == Err(ArgumentError("nome"))
    ensures (!IsBlank(codigo) && !IsBlank(nome) && precoUnitario < 0.0) ==> r == Err(ArgumentError("precoUnitario"))
  {
    if IsBlank(codigo) then Err(ArgumentError("codigo"))
    else if IsBlank(nome) then Err(ArgumentError("nome"))
    else if precoUnitario < 0.0 then Err(ArgumentError("precoUnitario"))
    else
      Ok(ProdutoState(id, Trim(codigo), Trim(nome), TrimOpt(descricao), precoUnitario, TrimOpt(categoria), true, now))
  }

  /** `Ativar` and `Inativar` are idempotent, and each undoes the other. */
  lemma ActivationFlags(p: ProdutoState)
    ensures p.Ativar().Ativar() == p.Ativar() && p.Inativar().Inativar() == p.Inativar()
    ensures p.Inativar().Ativar() == p.Ativar() && p.Ativar().Inativar() == p.Inativar()
    ensures (p.ativo ==> p.Ativar() == p) && (!p.ativo ==> p.Inativar() == p)
  {
  }

  /** Every method keeps the product valid and none changes its code. */
  lemma OperationsPreserveValid(p: ProdutoState, preco: real, nome: string, d: Option<string>)
    requires p.Valid()
    ensures p.Ativar().Valid() && p.Inativar().Valid()
    ensures p.AtualizarPreco(preco).Ok? ==> p.AtualizarPreco(preco).value.Valid()
    ensures p.AtualizarNome(nome).Ok? ==> p.AtualizarNome(nome).value.Valid()
    ensures p.AtualizarDescricao(d).Valid() && p.AtualizarCategoria(d).Valid()
    ensures p.AtualizarNome(nome).Ok? ==> p.AtualizarNome(nome).value.codigo == p.codigo
    ensures p.AtualizarPreco(preco).Ok? ==> p.AtualizarPreco(preco).value.codigo == p.codigo
  {
  }

  /** A product as it lives in memory. */
  class Produto {
    var id: Guid
    var codigo: string
    var nome: string
    var descricao: Option<string>
    var precoUnitario: real
    var categoria: Option<string>
    var ativo: bool
    var dataCadastro: Instant

    function State(): ProdutoState
      reads this
    {
      ProdutoState(id, codigo, nome, descricao, precoUnitario, categoria, ativo, dataCadastro)
    }

    /** A product with the given fields: how a stored product is materialised. */
    constructor FromState(s: ProdutoState)
      ensures State() == s
    {
      id, codigo, nome, descricao := s.id, s.codigo, s.nome, s.descricao;
      precoUnitario, categoria, ativo, dataCadastro := s.precoUnitario, s.categoria, s.ativo, s.dataCadastro;
    }

    /** `new Produto(...)`: a fresh product, or the exception of the first failed check. */
    static method New(id: Guid, codigo: string, nome: string, precoUnitario: real,
                      descricao: Option<string>, categoria: Option<string>, now: Instant) returns (r: Result<Produto>)
      ensures OutcomeOf(r) == OutcomeOf(NewProduto(id, codigo, nome, precoUnitario, descricao, categoria, now))
      ensures r.Ok? ==> fresh(r.value) &&
                        r.value.State() == NewProduto(id, codigo, nome, precoUnitario, descricao, categoria, now).value
    {
      var s := NewProduto(id, codigo, nome, precoUnitario, descricao, categoria, now);
      if s.Err? {
        return Err(s.error);
      }
      var p := new Produto.FromState(s.value);
      return Ok(p);
    }

    /** `Ativar()`. */
    method Ativar()
      modifies this
      ensures State() == old(State()).Ativar()
    {
      ativo := true;
    }

    /** `Inativar()`. */
    method Inativar()
      modifies this
      ensures State() == old(State()).Inativar()
    {
      ativo := false;
    }

    /** `AtualizarPreco(novoPreco)`: a rejected price changes nothing. */
    method AtualizarPreco(novoPreco: real) returns (o: Outcome)
      modifies this
      ensures o == OutcomeOf(old(State()).AtualizarPreco(novoPreco))
      ensures State() == (if o.Pass? then old(State()).AtualizarPreco(novoPreco).value else old(State()))
    {
      if novoPreco < 0.0 {
        return Fail(ArgumentError("novoPreco"));
      }
      precoUnitario := novoPreco;
      return Pass;
    }

    /** `AtualizarNome(novoNome)`: a rejected name changes nothing. */
    method AtualizarNome(novoNome: string) returns (o: Outcome)
      modifies this
      ensures o == OutcomeOf(old(State()).AtualizarNome(novoNome))
      ensures State() == (if o.Pass? then old(State()).AtualizarNome(novoNome).value else old(State()))
    {
      if IsBlank(novoNome) {
        return Fail(ArgumentError("novoNome"));
      }
      nome := Trim(novoNome);
      return Pass;
    }

    /** `AtualizarDescricao(novaDescricao)`. */
    method AtualizarDescricao(d: Option<string>)
      modifies this
      ensures State() == old(State()).AtualizarDescricao(d)
    {
      descricao := TrimOpt(d);
    }

    /** `AtualizarCategoria(novaCategoria)`. */
    method AtualizarCategoria(c: Option<string>)
      modifies this
      ensures State() == old(State()).AtualizarCategoria(c)
    {
      categoria := TrimOpt(c);
    }
  }
}
