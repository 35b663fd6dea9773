/** The whole shop as a state machine: every committed transaction is one step,
    and a run is any sequence of them, in any order and with any arguments. */
module Shop {
  import opened Results
  import opened Domain
  import opened CatalogStore
  import opened Database
  import opened Delivery
  import opened DeliveryAdmin
  import opened GateTable
  import opened InventoryStore
  import opened OrderStore
  import opened PaymentAcceptance
  import opened PaymentAdmin
  import opened QueueTable
  import opened SalesTable
  import opened StockTable
  import opened TillTable
  import opened WalletStore
  import opened WalletTable

  /** Users, administrators and the catalogue. LoadProduct is a product loaded by hand,
      possibly one that is not kept in inventory: no transaction creates those. */
  datatype SetupAction =
    | RegisterUser(user: User)
    | SetUserActive(u: nat, active: bool)
    | SetAdmin(admin: nat, manages: bool)
    | LoadProduct(product: Product)
    | EditBy(ticket: Ticket, update: nat, edit: Edit, now: int)

  datatype GateAction =
    | Claim(update: nat, now: int, staleBefore: int)
    | Complete(update: nat)
    | Fail(update: nat)
    | Start(admin: nat, state: string, expiresAt: int, update: nat)
    | Continue(ticket: Ticket, state: string, expiresAt: int, update: nat, now: int)
    | Cancel(ticket: Ticket, update: nat, now: int)

  datatype OrderAction =
    | Create(request: OrderRequest, update: nat, terms: OrderTerms, drawn: seq<string>)
    | CancelBy(user: nat, o: nat, version: nat, update: nat, now: int)
    | ExpireBatch(picked: seq<nat>, now: int)
    | Release(o: nat, reason: ReleaseReason)
    | Recover(o: nat, now: int)
    | ImportBy(ticket: Ticket, update: nat, product: nat, unseen: nat, now: int)
    | SwitchBy(ticket: Ticket, update: nat, item: nat, version: nat, enable: bool, now: int)

  datatype PaymentAction =
    | Receive(maxAttempts: nat, now: int)
    | ClaimBatch(picked: seq<nat>, now: int, staleBefore: int)
    | Reschedule(e: nat, nextAttemptAt: int)
    | Ignore(e: nat)
    | ReviewBefore(e: nat, reason: string)
    | Conflicting(e: nat, reason: string)
    | Accept(c: PaymentCommand, terms: Terms)
    | AcceptBy(ticket: Ticket, update: nat, c: PaymentCommand, terms: Terms)
    | ResolveBy(ticket: Ticket, update: nat, review: nat, status: ReviewStatus, now: int)
    | OpenWallet(user: nat)
    | AskTopup(request: TopupRequest, update: nat)
    | PayFromWallet(user: nat, o: nat, key: string, update: nat, terms: Terms)
    | AdjustBy(ticket: Ticket, update: nat, user: nat, amount: int, key: string, now: int)

  datatype DeliveryAction =
    | BackfillBatch(picked: seq<nat>, now: int, maxAttempts: nat)
    | RecoverBatch(picked: seq<nat>, now: int, staleBefore: int)
    | ClaimJobBatch(picked: seq<nat>, worker: string, now: int)
    | Begin(j: nat, worker: string)
    | Succeed(j: nat, worker: string, evidence: Evidence)
    | FailSend(j: nat, worker: string, failure: Failure)
    | FailBeforeSend(j: nat, worker: string, retryable: bool, code: string, nextAttemptAt: int)
    | Preserve(j: nat, message: int, reason: string)
    | RetryBy(ticket: Ticket, update: nat, j: nat, version: nat, now: int)
    | CompleteBy(ticket: Ticket, update: nat, j: nat, version: nat, message: int, now: int)

  datatype Action =
    | Setup(setup: SetupAction)
    | AtGate(gate: GateAction)
    | Ordering(order: OrderAction)
    | Paying(payment: PaymentAction)
    | Shipping(delivery: DeliveryAction)

  function ExecSetup(db: Db, a: SetupAction): Result<Db> {
    var s := db.sales;
    match a
    case RegisterUser(user) =>
      if user.chat <= 0 then Err(Constraint) else Ok(db.(sales := s.(users := s.users + [user])))
    case SetUserActive(u, active) =>
      if u < |s.users| then Ok(db.(sales := s.(users := s.users[u := s.users[u].(active := active)])))
        else Err(NotFound)
    case SetAdmin(admin, manages) => Ok(db.(gate := db.gate.(admins := db.gate.admins[admin := manages])))
    case LoadProduct(product) => Ok(db.(sales := s.(products := s.products + [product])))
    case EditBy(ticket, update, edit, now) => EditCatalog(db, ticket, update, edit, now)
  }

  function ExecGate(g: Gate, a: GateAction): Result<Gate> {
    match a
    case Claim(update, now, staleBefore) => Ok(ClaimUpdate(g, update, now, staleBefore).0)
    case Complete(update) => CompleteReceipt(g, update)
    case Fail(update) => FailUpdate(g, update)
    case Start(admin, state, expiresAt, update) => BeginSession(g, admin, state, expiresAt, update)
    case Continue(ticket, state, expiresAt, update, now) => ContinueSession(g, ticket, state, expiresAt, update, now)
    case Cancel(ticket, update, now) => CancelSession(g, ticket, update, now)
  }

  function ExecOrder(db: Db, a: OrderAction): Result<Db> {
    match a
    case Create(request, update, terms, drawn) =>
      var result :- CreateOrder(db, request, update, terms, drawn);
      Ok(result.0)
    case CancelBy(user, o, version, update, now) =>
      var result :- CancelOrder(db, user, o, version, update, now);
      Ok(result.0)
    case ExpireBatch(picked, now) => Ok(db.(sales := ExpireOrders(db.sales, picked, now)))
    case Release(o, reason) =>
      var result :- ReleaseInventory(db, o, reason);
      Ok(result.0)
    case Recover(o, now) =>
      var result :- RecoverExpired(db, o, now);
      Ok(result.0)
    case ImportBy(ticket, update, product, unseen, now) => Import(db, ticket, update, product, unseen, now)
    case SwitchBy(ticket, update, item, version, enable, now) =>
      SetEnabled(db, ticket, update, item, version, enable, now)
  }

  function ExecPayment(db: Db, a: PaymentAction): Result<Db> {
    match a
    case Receive(maxAttempts, now) => Ok(db.(till := InsertEvent(db.till, maxAttempts, now)))
    case ClaimBatch(picked, now, staleBefore) => Ok(db.(till := ClaimEvents(db.till, picked, now, staleBefore)))
    case Reschedule(e, nextAttemptAt) =>
      var till :- RetryEvent(db.till, e, nextAttemptAt);
      Ok(db.(till := till))
    case Ignore(e) =>
      var till :- FinishEvent(db.till, Some(e), EventCompleted);
      Ok(db.(till := till))
    case ReviewBefore(e, reason) =>
      var till :- ReviewEvent(db.till, e, reason);
      Ok(db.(till := till))
    case Conflicting(e, reason) =>
      var till :- ConflictEvent(db.till, e, reason);
      Ok(db.(till := till))
    case Accept(c, terms) =>
      var result :- AcceptPayment(db, c, terms);
      Ok(result.0)
    case AcceptBy(ticket, update, c, terms) =>
      var result :- ManualAccept(db, ticket, update, c, terms);
      Ok(result.0)
    case ResolveBy(ticket, update, review, status, now) => ResolveReviewCase(db, ticket, update, review, status, now)
    case OpenWallet(user) =>
      :- ActiveUser(db.sales, user);
      Ok(db.(wallets := EnsureAccount(db.wallets, user).0))
    case AskTopup(request, update) =>
      var result :- CreateTopup(db, request, update);
      Ok(result.0)
    case PayFromWallet(user, o, key, update, terms) =>
      var result :- PayOrder(db, user, o, key, update, terms);
      Ok(result.0)
    case AdjustBy(ticket, update, user, amount, key, now) => AdjustWallet(db, ticket, update, user, amount, key, now)
  }

  /** The two failures the worker reports before a send. */
  function EarlyFailure(retryable: bool, code: string, nextAttemptAt: int): Failure {
    Failure(if retryable then Retryable else Permanent, code, nextAttemptAt)
  }

  function ExecDelivery(db: Db, a: DeliveryAction): Result<Db> {
    match a
    case BackfillBatch(picked, now, maxAttempts) =>
      var result :- Backfill(db, picked, now, maxAttempts);
      Ok(result.0)
    case RecoverBatch(picked, now, staleBefore) =>
      var queue :- RecoverStale(db.queue, picked, now, staleBefore);
      Ok(db.(queue := queue))
    case ClaimJobBatch(picked, worker, now) => Ok(db.(queue := ClaimJobs(db.queue, picked, worker, now)))
    case Begin(j, worker) =>
      var result :- BeginAttempt(db, j, worker);
      Ok(result.0)
    case Succeed(j, worker, evidence) => FinalizeSuccess(db, j, worker, evidence)
    case FailSend(j, worker, failure) => FinalizeFailure(db, j, worker, failure)
    case FailBeforeSend(j, worker, retryable, code, nextAttemptAt) =>
      FinalizeClaimedFailure(db, j, worker, EarlyFailure(retryable, code, nextAttemptAt))
    case Preserve(j, message, reason) =>
      var queue :- PreserveAmbiguous(db.queue, j, message, reason);
      Ok(db.(queue := queue))
    case RetryBy(ticket, update, j, version, now) => RetryDelivery(db, ticket, update, j, version, now)
    case CompleteBy(ticket, update, j, version, message, now) =>
      CompleteDelivery(db, ticket, update, j, version, message, now)
  }

  function Exec(db: Db, a: Action): Result<Db> {
    match a
    case Setup(setup) => ExecSetup(db, setup)
    case AtGate(action) =>
      var gate :- ExecGate(db.gate, action);
      Ok(db.(gate := gate))
    case Ordering(action) => ExecOrder(db, action)
    case Paying(action) => ExecPayment(db, action)
    case Shipping(action) => ExecDelivery(db, action)
  }

  /** A transaction that fails is rolled back. */
  function Step(db: Db, a: Action): Db {
    match Exec(db, a)
    case Ok(next) => next
    case Err(_) => db
  }

  function Run(db: Db, actions: seq<Action>): Db
    decreases |actions|
  {
    if actions == [] then db else Run(Step(db, actions[0]), actions[1..])
  }

  /** The database after the migrations. */
  function Empty(): Db {
    Db(Gate(map[], map[], []), Sales([], [], [], [], map[]), Stock([], map[]), Queue([], map[]),
       Till([], [], [], []), Wallets([], [], []))
  }
}
