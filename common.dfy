/** Types shared by the whole model: identifiers, the clock, optional values and
    the two classes of exception the domain throws. */
module Common {

  /** A `System.Guid`. `EmptyGuid` stands for `Guid.Empty`; fresh identifiers
      (`Guid.NewGuid()`) are passed in by the caller. */
  type Guid = int

  const EmptyGuid: Guid := 0

  /** A `DateTime` read from the clock (`DateTime.Now`), passed in by the caller. */
  type Instant = int

  /** A C# reference or nullable value that may be null. */
  datatype Option<+T> = None | Some(value: T)

  /** What an `InvalidOperationException` reports: a wrong state, a missing
      record or insufficient stock. */
  datatype Reason =
    | AddItemNotPending        // Venda.AdicionarItem on a sale that is not pending
    | RemoveItemNotPending     // Venda.RemoverItem on a sale that is not pending
    | UpdateItemNotPending     // Venda.AtualizarQuantidadeItem on a sale that is not pending
    | ConfirmNotPending        // Venda.Confirmar on a sale that is not pending
    | ItemNotFound             // no line with the given item id
    | EmptySale                // Venda.Confirmar on a sale without lines
    | AlreadyCancelled         // Venda.Cancelar on a cancelled sale
    | InsufficientStock        // a decrement larger than the quantity on hand
    | ClientNotFound
    | ProductNotFound
    | ProductInactive
    | SaleNotFound
    | StockNotFound
    | StockAlreadyExists       // the product already has a stock record
    | CodeAlreadyRegistered    // the product code is already in use

  /** The unique indexes of the database schema. */
  datatype UniqueIndex =
    | ProdutoCodigoIndex       // Produtos.Codigo
    | EstoqueProdutoIdIndex    // Estoques.ProdutoId

  /** The exceptions a call can end in: the domain's `ArgumentException` for
      bad input (carrying the `nameof` parameter, or "" when the source gives
      none) and `InvalidOperationException` for everything else, and the
      `DbUpdateException` of a commit that breaks a unique index. */
  datatype Error = ArgumentError(param: string) | InvalidOperation(reason: Reason) | DbUpdate(index: UniqueIndex)

  /** The outcome of a call that returns a value or throws. */
  datatype Result<+T> = Ok(value: T) | Err(error: Error) {
    predicate IsFailure() { Err? }

    function PropagateFailure<U>(): Result<U>
      requires Err?
    {
      Err(error)
    }

    function Extract(): T
      requires Ok?
    {
      value
    }
  }

  /** The outcome of a `void` call: it returns or throws. */
  datatype Outcome = Pass | Fail(error: Error)

  /** The outcome of a call, forgetting the value it returns. */
  function OutcomeOf<T>(r: Result<T>): Outcome
  {
    match r
    case Ok(_) => Pass
    case Err(e) => Fail(e)
  }
}
