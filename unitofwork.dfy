/** The unit of work (GerenciamentoDeVendas/Domain/Interfaces/IUnitOfWork.cs): the four
    repositories as one committed store, replaced as a whole by `CommitAsync`. */
module UnitOfWorkStore {

  import opened Common
  import opened ClienteEntity
  import opened ProdutoEntity
  import opened EstoqueEntity
  import opened VendaEntity

  /** What the database holds. Customers, products and sales are found by
      their key; stock records are found by the product they belong to, so
      that table is the sequence of its rows. */
  datatype Store = Store(
    clientes: map<Guid, ClienteState>,
    produtos: map<Guid, ProdutoState>,
    estoques: seq<EstoqueState>,
    vendas: map<Guid, VendaState>)

  /** `Estoques.ObterPorProdutoIdAsync(produtoId)`: the first row for the product. */
  function IndexOfEstoqueProduto(rows: seq<EstoqueState>, produtoId: Guid): (r: Option<nat>)
    ensures r.None? <==> forall k :: 0 <= k < |rows| ==> rows[k].produtoId != produtoId
    ensures r.Some? ==> r.value < |rows| && rows[r.value].produtoId == produtoId &&
                        forall k :: 0 <= k < r.value ==> rows[k].produtoId != produtoId
  {
    if rows == [] then None
    else if rows[0].produtoId == produtoId then Some(0)
    else match IndexOfEstoqueProduto(rows[1..], produtoId)
      case None => None
      case Some(k) => Some(k + 1)
  }

  /** `Estoques.ObterPorIdAsync(id)`: the row with that key. */
  function IndexOfEstoqueId(rows: seq<EstoqueState>, id: Guid): (r: Option<nat>)
    ensures r.None? <==> forall k :: 0 <= k < |rows| ==> rows[k].id != id
    ensures r.Some? ==> r.value < |rows| && rows[r.value].id == id &&
                        forall k :: 0 <= k < r.value ==> rows[k].id != id
  {
    if rows == [] then None
    else if rows[0].id == id then Some(0)
    else match IndexOfEstoqueId(rows[1..], id)
      case None => None
      case Some(k) => Some(k + 1)
  }

  /** No product has two stock records. */
  predicate OneRecordPerProduct(rows: seq<EstoqueState>)
  {
    forall i, j :: 0 <= i < j < |rows| ==> rows[i].produtoId != rows[j].produtoId
  }

  /** Two tables whose rows are for the same products, in the same order. */
  predicate SameProducts(a: seq<EstoqueState>, b: seq<EstoqueState>)
  {
    |a| == |b| && forall j :: 0 <= j < |a| ==> a[j].produtoId == b[j].produtoId
  }

  /** Rewriting rows without changing their product leaves every lookup by product where it was. */
  lemma {:induction false} LookupStable(a: seq<EstoqueState>, b: seq<EstoqueState>, produtoId: Guid)
    requires SameProducts(a, b)
    ensures IndexOfEstoqueProduto(a, produtoId) == IndexOfEstoqueProduto(b, produtoId)
  {
    if a != [] && a[0].produtoId != produtoId {
      LookupStable(a[1..], b[1..], produtoId);
    }
  }

  /** No two products share a code: the unique index on `Codigo`
      (Infrastructure/Data/Configurations/ProdutoConfiguration.cs). */
  predicate UniqueCodes(produtos: map<Guid, ProdutoState>)
  {
    forall k1, k2 :: k1 in produtos && k2 in produtos && k1 != k2 ==> produtos[k1].codigo != produtos[k2].codigo
  }

  /** The unique index a store breaks, if any: the product codes are checked
      before the stock records' products. */
  function IndexViolation(s: Store): (r: Option<UniqueIndex>)
    ensures r.None? <==> UniqueCodes(s.produtos) && OneRecordPerProduct(s.estoques)
    ensures r == Some(ProdutoCodigoIndex) <==> !UniqueCodes(s.produtos)
    ensures r == Some(EstoqueProdutoIdIndex) <==> UniqueCodes(s.produtos) && !OneRecordPerProduct(s.estoques)
  {
    if !UniqueCodes(s.produtos) then Some(ProdutoCodigoIndex)
    else if !OneRecordPerProduct(s.estoques) then Some(EstoqueProdutoIdIndex)
    else None
  }

  /** A store the database accepts. */
  predicate Indexed(s: Store)
  {
    IndexViolation(s).None?
  }

  /** What a use case that staged `r` leaves behind once `CommitAsync` runs:
      its own exception, the database's refusal, or the staged store. */
  function Saved(r: Result<Store>): (s: Result<Store>)
    ensures s.Ok? <==> r.Ok? && Indexed(r.value)
    ensures s.Ok? ==> s == r
    ensures r.Err? ==> s == r
    ensures r.Ok? && !Indexed(r.value) ==> s == Err(DbUpdate(IndexViolation(r.value).value))
  {
    match r
    case Err(_) => r
    case Ok(st) =>
      match IndexViolation(st)
      case None => r
      case Some(ix) => Err(DbUpdate(ix))
  }

  /** Rewriting rows without changing their product keeps one record per product. */
  lemma SameProductsKeepOneRecord(a: seq<EstoqueState>, b: seq<EstoqueState>)
    requires SameProducts(a, b) && OneRecordPerProduct(b)
    ensures OneRecordPerProduct(a)
  {
    forall i, j | 0 <= i < j < |a|
      ensures a[i].produtoId != a[j].produtoId
    {
      assert a[i].produtoId == b[i].produtoId && a[j].produtoId == b[j].produtoId;
    }
  }

  /** A use case that leaves the products and the stock records' products
      as they were cannot break an index the store already kept, so its
      commit goes through. */
  lemma SavedWhenKeyed(st: Store, r: Result<Store>)
    requires Indexed(st)
    requires r.Ok? ==> r.value.produtos == st.produtos && SameProducts(r.value.estoques, st.estoques)
    ensures Saved(r) == r
  {
    if r.Ok? {
      SameProductsKeepOneRecord(r.value.estoques, st.estoques);
    }
  }

  /** The unit of work: what has been committed so far. */
  class UnitOfWork {
    var committed: Store

    constructor (s: Store)
      ensures committed == s
    {
      committed := s;
    }

    /** `CommitAsync()`: every staged change becomes visible at once, unless
        the staged store breaks a unique index, in which case `SaveChanges`
        throws and nothing is written. */
    method Commit(staged: Store) returns (o: Outcome)
      modifies this
      ensures o == OutcomeOf(Saved(Ok(staged)))
      ensures committed == (if o.Pass? then staged else old(committed))
    {
      var ix := IndexViolation(staged);
      if ix.Some? {
        return Fail(DbUpdate(ix.value));
      }
      committed := staged;
      return Pass;
    }
  }
}
