/** Outcome types shared by every module: a statement or a transaction either
    yields a value or fails with one of the sentinel errors of the program. */
module Results {

  datatype Option<+T> = None | Some(value: T)

  /** The sentinel errors, plus the two ways PostgreSQL itself refuses a
      statement: NoRows (a guarded statement matched nothing) and Constraint
      (a CHECK, UNIQUE or range violation). */
  datatype Error =
    | NoRows
    | Constraint
    | InvalidInput
    | NotFound
    | Unauthorized
    | Forbidden
    | UserBlocked
    | SessionExpired
    | StaleVersion
    | Conflict
    | DuplicateUpdate
    | InventoryNotFound
    | InvalidInventoryState
    | InsufficientInventory
    | UnsafeReservationRelease
    | ReservationNotOwned
    | OrderNotFound
    | InvalidOrderState
    | OrderExpired
    | OrderAlreadyPaid
    | InvalidQuantity
    | QuantityLimitExceeded
    | MoneyOverflow
    | InvalidMoney
    | ProductInactive
    | CategoryInactive
    | BankAccountNotFound
    | BankAccountInactive
    | PaymentReferenceCollision
    | PaymentTransactionConflict
    | InsufficientWalletBalance
    | DeliveryNotFound
    | InvalidDeliveryState
    | DeliveryLeaseLost
    | DeliveryInventoryMismatch
    | UnsafeDeliveryResolution

  datatype Result<+T> = Ok(value: T) | Err(error: Error) {

    predicate IsFailure() {
      Err?
    }

    function PropagateFailure<U>(): Result<U> {
      match this
      case Err(e) => Err(e)
      case Ok(_) => Err(NoRows)
    }

    function Extract(): T
      requires Ok?
    {
      value
    }

    /** Why a failed outcome failed. */
    function Why(): Error {
      match this
      case Err(e) => e
      case Ok(_) => NoRows
    }
  }

  /** The result of a check that carries no value. */
  datatype Check = Pass | Fail(error: Error) {

    predicate IsFailure() {
      Fail?
    }

    function PropagateFailure<U>(): Result<U> {
      match this
      case Fail(e) => Err(e)
      case Pass => Err(NoRows)
    }
  }

  function Need(condition: bool, error: Error): Check {
    if condition then Pass else Fail(error)
  }

  /** What the network does to one statement: it answers, it does not commit, or it
      commits and its answer is lost. */
  datatype Fault = Fine | Fails | Lost

  /** The last row that satisfies a condition, if there is one. */
  function Find<T>(rows: seq<T>, wanted: T -> bool): (found: Option<nat>)
    ensures found.Some? ==> found.value < |rows| && wanted(rows[found.value])
    ensures found.None? ==> forall i :: 0 <= i < |rows| ==> !wanted(rows[i])
  {
    if rows == [] then None
    else if wanted(rows[|rows| - 1]) then Some(|rows| - 1)
    else Find(rows[..|rows| - 1], wanted)
  }

  /** Removing a subset takes away its size. */
  lemma SubsetSize<T>(small: set<T>, large: set<T>)
    requires small <= large
    ensures |small| <= |large|
  {
    assert large == small + (large - small);
  }
}
