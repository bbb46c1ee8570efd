/** The Cliente entity (GerenciamentoDeVendas/Domain/Entities/Cliente.cs): a customer
    whose properties are public and settable and start out null or false, since
    the class declares no constructor. */
module ClienteEntity {

  import opened Common
  import opened DocumentoValue
  import opened EnderecoValue
  import opened ContatoValue

  /** The properties of a customer; a reference that may still be null is an `Option`. */
  datatype ClienteState = ClienteState(
    nome: Option<string>,
    documento: Option<Documento>,
    inativo: bool,
    contatos: Option<seq<Contato>>,
    enderecoPrincipal: Option<Endereco>,
    enderecoSecundarios: Option<seq<Endereco>>)
  {
    /** `Ativa()`: only `Inativo` changes, to false. */
    function Ativa(): (r: ClienteState)
      ensures !r.inativo && r.(inativo := inativo) == this
    {
      this.(inativo := false)
    }

    /** `Inativa()`: only `Inativo` changes, to true. */
    function Inativa(): (r: ClienteState)
      ensures r.inativo && r.(inativo := inativo) == this
    {
      this.(inativo := true)
    }

    /** `SetEnderecoPrincipal(endereco)`: stores its argument as it is, null included. */
    function SetEnderecoPrincipal(e: Option<Endereco>): (r: ClienteState)
      ensures r.enderecoPrincipal == e && r.(enderecoPrincipal := enderecoPrincipal) == this
    {
      this.(enderecoPrincipal := e)
    }
  }

  /** The implicit parameterless constructor: every reference null, `Inativo` false. */
  const Inicial := ClienteState(None, None, false, None, None, None)

  /** `Ativa` and `Inativa` are idempotent, `Ativa` after `Inativa` restores an
      active customer, and the address setter commutes with both. */
  lemma ActivationFlags(c: ClienteState, e: Option<Endereco>)
    ensures c.Ativa().Ativa() == c.Ativa() && c.Inativa().Inativa() == c.Inativa()
    ensures c.Inativa().Ativa() == c.Ativa() && c.Ativa().Inativa() == c.Inativa()
    ensures !c.inativo ==> c.Inativa().Ativa() == c
    ensures c.SetEnderecoPrincipal(e).Ativa() == c.Ativa().SetEnderecoPrincipal(e)
    ensures c.SetEnderecoPrincipal(e).Inativa() == c.Inativa().SetEnderecoPrincipal(e)
  {
  }

  /** A customer as it lives in memory. */
  class Cliente {
    var nome: Option<string>
    var documento: Option<Documento>
    var inativo: bool
    var contatos: Option<seq<Contato>>
    var enderecoPrincipal: Option<Endereco>
    var enderecoSecundarios: Option<seq<Endereco>>

    function State(): ClienteState
      reads this
    {
      ClienteState(nome, documento, inativo, contatos, enderecoPrincipal, enderecoSecundarios)
    }

    /** `new Cliente()`. */
    constructor ()
      ensures State() == Inicial
    {
      nome, documento, inativo := None, None, false;
      contatos, enderecoPrincipal, enderecoSecundarios := None, None, None;
    }

    /** A customer with the given properties: how a stored customer is materialised. */
    constructor FromState(s: ClienteState)
      ensures State() == s
    {
      nome, documento, inativo := s.nome, s.documento, s.inativo;
      contatos, enderecoPrincipal, enderecoSecundarios := s.contatos, s.enderecoPrincipal, s.enderecoSecundarios;
    }

    /** `Ativa()`. */
    method Ativa()
      modifies this
      ensures State() == old(State()).Ativa()
    {
      inativo := false;
    }

    /** `Inativa()`. */
    method Inativa()
      modifies this
      ensures State() == old(State()).Inativa()
    {
      inativo := true;
    }

    /** `SetEnderecoPrincipal(endereco)`. */
    method SetEnderecoPrincipal(e: Option<Endereco>)
      modifies this
      ensures State() == old(State()).SetEnderecoPrincipal(e)
    {
      enderecoPrincipal := e;
    }
  }
}
