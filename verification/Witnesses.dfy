/** Runs from the empty tables that reach the inputs on which the code and its
    intention differ. */
module Witnesses {
  import opened Results
  import opened CatalogStore
  import opened Domain
  import opened Database
  import opened GateTable
  import opened QueueTable
  import opened SalesTable
  import opened Shop
  import opened StockTable
  import opened TillTable
  import opened WalletTable
  import Anomalies
  import Delivery
  import DeliveryAdmin
  import ExactlyOnce
  import InventoryImport
  import InventoryStore
  import OrderStore
  import PaymentAcceptance
  import PaymentAdmin
  import PaymentEvents
  import Text

  // ---------- an administrator's session ----------

  const WORKER := "w"

  /** Two claimed updates: one opens the session, the other is left for its use. */
  function Entering(update: nat, state: string): seq<Action> {
    [AtGate(GateAction.Claim(update, 0, 0)), AtGate(Start(0, state, 10, update)),
     AtGate(GateAction.Claim(update + 1, 0, 0))]
  }

  /** The only session of administrator 0 after n uses. */
  function Used(n: nat): seq<Session> {
    if n == 0 then [] else [Session(0, SESSION_COMPLETED, 0, 2 * n)]
  }

  predicate Quiet(g: Gate, n: nat, update: nat) {
    && g.admins == map[0 := true] && g.sessions == Used(n)
    && forall u :: u in g.receipts ==> u < update
  }

  function Ready(n: nat): Ticket {
    Ticket(0, 0, 2 * n + 1)
  }

  /** Entering opens the next session and touches the gate alone. */
  lemma Entered(db: Db, n: nat, update: nat, state: string)
    requires Quiet(db.gate, n, update)
    ensures var db' := Run(db, Entering(update, state));
            && db' == db.(gate := db'.gate)
            && db'.gate.admins == map[0 := true]
            && db'.gate.sessions == [Session(0, state, 10, 2 * n + 1)]
            && Processing(db'.gate, update + 1)
            && forall u :: u in db'.gate.receipts ==> u < update + 2
  {
    var first := AtGate(GateAction.Claim(update, 0, 0));
    var second := AtGate(Start(0, state, 10, update));
    var third := AtGate(GateAction.Claim(update + 1, 0, 0));
    RunThree(db, first, second, third);
    var one := Step(db, first);
    assert FindSession(one.gate, 0) == if n == 0 then None else Some(0);
    var two := Step(one, second);
    assert two.gate.sessions == [Session(0, state, 10, 2 * n + 1)];
  }

  lemma RunThree(db: Db, a: Action, b: Action, c: Action)
    ensures Run(db, [a, b, c]) == Step(Step(Step(db, a), b), c)
  {
    assert [a, b, c][1..] == [b, c];
    RunTwo(Step(db, a), b, c);
  }

  lemma RunTwo(db: Db, a: Action, b: Action)
    ensures Run(db, [a, b]) == Step(Step(db, a), b)
  {
    assert [a, b][1..] == [b] && [b][1..] == [];
    assert Run(db, [a, b]) == Run(Step(db, a), [b]) == Run(Step(Step(db, a), b), []);
  }

  // ---------- a shop with one item and one paid event ----------

  /** One administrator, one customer. */
  function Opening(): seq<Action> {
    [Setup(SetAdmin(0, true)), Setup(RegisterUser(User(1, true)))]
  }

  function Opened(): Db {
    Empty().(gate := Gate(map[0 := true], map[], []), sales := Sales([User(1, true)], [], [], [], map[]))
  }

  lemma OpeningRuns()
    ensures Run(Empty(), Opening()) == Opened()
  {
    RunTwo(Empty(), Setup(SetAdmin(0, true)), Setup(RegisterUser(User(1, true))));
  }

  /** The administrator enters a session for an edit of the catalogue and makes it. */
  function Editing(n: nat, update: nat, edit: Edit): seq<Action> {
    Entering(update, SessionFor(edit)) + [Setup(EditBy(Ready(n), update + 1, edit, 0))]
  }

  lemma EditingRuns(db: Db, n: nat, update: nat, edit: Edit)
    requires Quiet(db.gate, n, update) && Apply(db.sales, edit).Ok?
    ensures var db' := Run(db, Editing(n, update, edit));
            db' == db.(gate := db'.gate, sales := Apply(db.sales, edit).value) && Quiet(db'.gate, n + 1, update + 2)
  {
    var entering := Entering(update, SessionFor(edit));
    var last := Setup(EditBy(Ready(n), update + 1, edit, 0));
    Entered(db, n, update, SessionFor(edit));
    var entered := Run(db, entering);
    ExactlyOnce.RunSplits(db, entering, [last]);
    RunOne(entered, last);
    EditIsExact(entered, Ready(n), update + 1, edit, 0);
    EditSteps(entered, last.setup);
  }

  lemma EditSteps(db: Db, a: SetupAction)
    requires a.EditBy? && EditCatalog(db, a.ticket, a.update, a.edit, a.now).Ok?
    ensures Step(db, Setup(a)) == EditCatalog(db, a.ticket, a.update, a.edit, a.now).value
  {
    assert Exec(db, Setup(a)) == EditCatalog(db, a.ticket, a.update, a.edit, a.now);
  }

  lemma RunOne(db: Db, a: Action)
    ensures Run(db, [a]) == Step(db, a)
  {
    assert [a][1..] == [];
    assert Run(db, [a]) == Run(Step(db, a), []);
  }

  /** One product and one bank account. */
  function Furnishing(): seq<Action> {
    Editing(0, 1, CreateProduct(5, true)) + Editing(1, 3, CreateBank("production"))
  }

  function Furnished(): Db {
    Opened().(sales := Sales([User(1, true)], [Product(5, true, true, true)], [Bank(true, "production")], [], map[]))
  }

  lemma FurnishingRuns()
    ensures var db := Run(Opened(), Furnishing());
            db == Furnished().(gate := db.gate) && Quiet(db.gate, 2, 5)
  {
    var first, second := Editing(0, 1, CreateProduct(5, true)), Editing(1, 3, CreateBank("production"));
    EditingRuns(Opened(), 0, 1, CreateProduct(5, true));
    BankIsAdded(Run(Opened(), first));
    ExactlyOnce.RunSplits(Opened(), first, second);
  }

  lemma BankIsAdded(db: Db)
    requires db == Opened().(gate := db.gate, sales := db.sales) && Quiet(db.gate, 1, 3)
    requires db.sales == Sales([User(1, true)], [Product(5, true, true, true)], [], [], map[])
    ensures var db' := Run(db, Editing(1, 3, CreateBank("production")));
            db' == Furnished().(gate := db'.gate) && Quiet(db'.gate, 2, 5)
  {
    EditingRuns(db, 1, 3, CreateBank("production"));
    assert db.sales.banks + [Bank(true, "production")] == [Bank(true, "production")];
  }

  function Stocking(): seq<Action> {
    Entering(5, InventoryStore.INVENTORY_IMPORT) + [Ordering(ImportBy(Ready(2), 6, 0, 1, 0))]
  }

  function OneItem(): Stock {
    Stock([Item(0, Available, true, 1)], map[])
  }

  lemma StockingRuns(db: Db)
    requires db == Furnished().(gate := db.gate) && Quiet(db.gate, 2, 5)
    ensures var db' := Run(db, Stocking());
            db' == Furnished().(stock := OneItem(), gate := db'.gate) && Quiet(db'.gate, 3, 7)
  {
    Entered(db, 2, 5, InventoryStore.INVENTORY_IMPORT);
    var entered := Run(db, Entering(5, InventoryStore.INVENTORY_IMPORT));
    var last := Ordering(ImportBy(Ready(2), 6, 0, 1, 0));
    ExactlyOnce.RunSplits(db, Entering(5, InventoryStore.INVENTORY_IMPORT), [last]);
    RunOne(entered, last);
    assert ImportItems(entered.stock, 0, 1).items == OneItem().items;
  }

  const REFERENCE := "R"

  function Buying(): seq<Action> {
    [AtGate(GateAction.Claim(7, 0, 0)),
     Ordering(Create(OrderStore.OrderRequest(0, 0, 1, 0, "k"), 7, OrderStore.OrderTerms(0, 10, 1, "production"),
                     [REFERENCE]))]
    + [Paying(Receive(3, 0)), Paying(ClaimBatch([0], 0, 0))]
  }

  /** The order that waits for its payment, and the event that is being processed. */
  function Bought(gate: Gate): Db {
    Furnished().(
      gate := gate, stock := OneItem(),
      sales := Furnished().sales.(
        orders := [Order(0, PendingPayment, 1, 0, 5, 1, 5, REFERENCE, "k", 10, "production", 0)],
        history := map[0 := [HistoryRow(None, PendingPayment, "order_created")]]),
      till := Till([], [], [], [PaymentEvent(EventProcessing, 1, 3, 0, 0)]))
  }

  lemma OrderIsCreated(db: Db)
    requires db == Furnished().(stock := OneItem(), gate := db.gate) && Processing(db.gate, 7)
    ensures var request, terms := OrderStore.OrderRequest(0, 0, 1, 0, "k"),
            OrderStore.OrderTerms(0, 10, 1, "production");
            OrderStore.CreateOrder(db, request, 7, terms, [REFERENCE]) ==
            Ok((Bought(db.gate.(receipts := db.gate.receipts[7 := ReceiptCompleted])).(till := Till([], [], [], [])),
                0, false))
  {
    var request, terms := OrderStore.OrderRequest(0, 0, 1, 0, "k"), OrderStore.OrderTerms(0, 10, 1, "production");
    var s := db.sales;
    var order := Order(0, PendingPayment, 1, 0, 5, 1, 5, "", "k", 10, "production", 0);
    OneClaimable(db.stock);
    assert Multiply(5, 1) == Ok(5);
    assert OrderStore.Draft(db, request, terms) == Ok(order);
    assert s.orders == [] && FindByKey(s, 0, "k").None? && FindByReference(s, REFERENCE).None?;
    var named := order.(reference := REFERENCE);
    var inserted := s.(orders := [named]);
    assert s.orders + [named] == [named];
    assert InsertPendingOrder(s, named) == Some(inserted);
    assert HistoryOf(inserted, 0) + [HistoryRow(None, PendingPayment, "order_created")] ==
           [HistoryRow(None, PendingPayment, "order_created")];
    assert InsertHistory(inserted, 0, None, PendingPayment, "order_created") == Bought(db.gate).sales;
    assert OrderStore.InsertWithReference(s, order, [REFERENCE]) == Ok((Bought(db.gate).sales, 0, false));
  }

  lemma OneClaimable(s: Stock)
    requires s == OneItem()
    ensures Claimable(s, 0) == {0}
  {
    assert 0 in Claimable(s, 0);
    assert forall i :: i in Claimable(s, 0) ==> i == 0;
  }

  lemma BuyingRuns(db: Db)
    requires db == Furnished().(stock := OneItem(), gate := db.gate) && Quiet(db.gate, 3, 7)
    ensures var db' := Run(db, Buying());
            db' == Bought(db'.gate) && Quiet(db'.gate, 3, 8)
  {
    var a := AtGate(GateAction.Claim(7, 0, 0));
    var b := Ordering(Create(OrderStore.OrderRequest(0, 0, 1, 0, "k"), 7,
                             OrderStore.OrderTerms(0, 10, 1, "production"), [REFERENCE]));
    var c, d := Paying(Receive(3, 0)), Paying(ClaimBatch([0], 0, 0));
    ExactlyOnce.RunSplits(db, [a, b], [c, d]);
    RunTwo(db, a, b);
    OrderIsCreated(Step(db, a));
    var created := Step(Step(db, a), b);
    RunTwo(created, c, d);
    var received := Step(created, c);
    assert received.till.events == [PaymentEvent(EventReceived, 0, 3, 0, 0)];
    assert Step(received, d).till.events == [PaymentEvent(EventProcessing, 1, 3, 0, 0)];
  }

  function Payable(): seq<Action> {
    Opening() + (Furnishing() + (Stocking() + Buying()))
  }

  lemma PayableRuns() returns (db: Db)
    ensures db == Run(Empty(), Payable()) == Bought(db.gate) && Quiet(db.gate, 3, 8)
  {
    OpeningRuns();
    FurnishingRuns();
    var furnished := Run(Opened(), Furnishing());
    StockingRuns(furnished);
    BuyingRuns(Run(furnished, Stocking()));
    ExactlyOnce.RunSplits(Empty(), Opening(), Furnishing() + (Stocking() + Buying()));
    ExactlyOnce.RunSplits(Opened(), Furnishing(), Stocking() + Buying());
    ExactlyOnce.RunSplits(furnished, Stocking(), Buying());
    db := Run(Empty(), Payable());
  }

  function Transfer(): PaymentAcceptance.PaymentCommand {
    PaymentAcceptance.PaymentCommand(Some(0), "bank", "t", REFERENCE, 5, "VND", "production", Some(0))
  }

  // ---------- a retry the transition table does not know ----------

  /** The transfer is accepted and the job fails before its send; then an administrator
      asks for a retry of the job that would have been retried anyway. */
  function Retrying(): seq<Action> {
    [Paying(Accept(Transfer(), PaymentAcceptance.Terms(0, 20, 3, {0})))] + FailingEarly()
  }

  function FailingEarly(): seq<Action> {
    [Shipping(ClaimJobBatch([0], WORKER, 0)), Shipping(FailBeforeSend(0, WORKER, true, "cancelled_before_send", 7))]
    + Entering(8, DeliveryAdmin.DELIVERY_RETRY)
  }

  function NewJob(): Job {
    Job(0, 1, JobPending, None, 0, 3, 0, None, NoResolution, 1, 3)
  }

  lemma TransferIsAccepted(db: Db)
    requires db == Bought(db.gate)
    ensures var db' := Step(db, Paying(Accept(Transfer(), PaymentAcceptance.Terms(0, 20, 3, {0}))));
            && db'.gate == db.gate && db'.queue == Queue([NewJob()], map[])
            && |db'.sales.orders| == 1 && db'.sales.orders[0].status == Delivering
  {
    var terms := PaymentAcceptance.Terms(0, 20, 3, {0});
    TransferIsForTheOrder(db, terms);
    TransferIsFulfilled(db);
    AcceptanceCommits(db, Transfer(), terms);
  }

  lemma AcceptanceCommits(db: Db, c: PaymentAcceptance.PaymentCommand, terms: PaymentAcceptance.Terms)
    requires PaymentAcceptance.AcceptPayment(db, c, terms).Ok?
    ensures Step(db, Paying(Accept(c, terms))) == PaymentAcceptance.AcceptPayment(db, c, terms).value.0
  {
    AcceptanceRuns(db, c, terms);
    PayingSteps(db, Accept(c, terms));
  }

  lemma AcceptanceRuns(db: Db, c: PaymentAcceptance.PaymentCommand, terms: PaymentAcceptance.Terms)
    requires PaymentAcceptance.AcceptPayment(db, c, terms).Ok?
    ensures ExecPayment(db, Accept(c, terms)) == Ok(PaymentAcceptance.AcceptPayment(db, c, terms).value.0)
  {
  }

  lemma PayingSteps(db: Db, a: PaymentAction)
    requires ExecPayment(db, a).Ok?
    ensures Step(db, Paying(a)) == ExecPayment(db, a).value
  {
    assert Exec(db, Paying(a)) == ExecPayment(db, a);
  }

  lemma TransferIsForTheOrder(db: Db, terms: PaymentAcceptance.Terms)
    requires db == Bought(db.gate)
    ensures PaymentAcceptance.AcceptPayment(db, Transfer(), terms) ==
            PaymentAcceptance.AcceptForOrder(db, Transfer(), 0, terms)
  {
    TransferFindsItsOrder(db);
  }

  /** The transfer is new and names the one order. */
  lemma TransferFindsItsOrder(db: Db)
    requires db == Bought(db.gate)
    ensures FindPayment(db.till, "bank", "production", "t").None?
    ensures FindByReference(db.sales, REFERENCE) == Some(0)
    ensures FindTopupByReference(db.wallets, REFERENCE).None?
    ensures PaymentAcceptance.OrderProblem(db.sales.orders[0], Transfer(), 0) == ""
  {
    assert db.sales.orders[0].reference == REFERENCE;
  }

  lemma TransferIsFulfilled(db: Db)
    requires db == Bought(db.gate)
    ensures var r := PaymentAcceptance.AcceptForOrder(db, Transfer(), 0, PaymentAcceptance.Terms(0, 20, 3, {0}));
            && r.Ok? && r.value.0.gate == db.gate
            && r.value.0.queue == Queue([NewJob()], map[])
            && |r.value.0.sales.orders| == 1 && r.value.0.sales.orders[0].status == Delivering
  {
    var c, terms := Transfer(), PaymentAcceptance.Terms(0, 20, 3, {0});
    OneClaimable(db.stock);
    TransferFindsItsOrder(db);
    assert ExactSet(db.stock, 0, 1, {0}) == {0};
    OrderIsPaid(db.sales);
    var sales := PassThroughPaid(db.sales, 0, "payment_accepted", "inventory_claim_started").value;
    var payment := PaymentAcceptance.PaymentFor(c, Some(0), 0, true);
    var till := InsertPayment(db.till, payment).value;
    assert till.allocations == [] && till.events == db.till.events;
    ItemIsMapped(db.stock);
    ItemIsHanded(db.(sales := sales, till := till));
  }

  lemma OrderIsPaid(s: Sales)
    requires s == Bought(Empty().gate).sales
    ensures var r := PassThroughPaid(s, 0, "payment_accepted", "inventory_claim_started");
            r.Ok? && r.value.users == s.users && r.value.orders == [s.orders[0].(status := Reserving, version := 3)]
  {
  }

  lemma ItemIsMapped(s: Stock)
    requires s == OneItem()
    ensures InsertMappings(Reserve(s, 0, 20, {0}), 0, {0}) ==
            Ok(Stock([Item(0, StockTable.Reserved(0, 20), true, 2)], map[(0, 0) := StockTable.Active]))
  {
    var r := Reserve(s, 0, 20, {0});
    assert r.items == [Item(0, StockTable.Reserved(0, 20), true, 2)] && r.mappings == map[];
    assert !HasActiveMapping(r, 0);
    assert r.mappings + RowsFor(0, {0}, StockTable.Active) == map[(0, 0) := StockTable.Active];
  }

  /** From the claim to the job. */
  lemma ItemIsHanded(db: Db)
    requires db.stock == OneItem() && db.queue == Queue([], map[]) && db.till.allocations == []
    requires db.sales.users == [User(1, true)] && |db.sales.orders| == 1
    requires var o := db.sales.orders[0]; o.user == 0 && o.status == Reserving && o.quantity == 1 && o.total == 5
    ensures var r := PaymentAcceptance.Fulfil(db, 0, 0, {0}, PaymentAcceptance.Terms(0, 20, 3, {0}));
            && r.Ok? && r.value.gate == db.gate && r.value.till.events == db.till.events
            && r.value.queue == Queue([NewJob()], map[])
            && |r.value.sales.orders| == 1 && r.value.sales.orders[0].status == Delivering
  {
    ItemIsMapped(db.stock);
    var stock := InsertMappings(Reserve(db.stock, 0, 20, {0}), 0, {0}).value;
    assert 0 in Deliverable(stock, 0);
    assert Deliverable(stock, 0) == {0};
    assert FindByOrder(db.queue, 0).None?;
    assert db.queue.jobs == [];
  }

  /** A reachable job that waits for its automatic retry is retried by hand, along a
      step that the table of manual transitions does not have. */
  lemma RetryLeavesTheTable()
    ensures var db := Run(Empty(), Payable() + Retrying());
            && |db.queue.jobs| == 1 && db.queue.jobs[0].status == JobRetryableFailed
            && var r := DeliveryAdmin.RetryDelivery(db, Ready(3), 9, 0, 3, 0);
            && r.Ok? && |r.value.queue.jobs| == 1
            && !CanTransitionDelivery(JobRetryableFailed, r.value.queue.jobs[0].status, true)
  {
    var db := RetryIsReached();
    RetryCommits(db);
  }

  lemma RetryIsReached() returns (db: Db)
    ensures db == Run(Empty(), Payable() + Retrying()) && Retryable(db)
  {
    var start := PayableRuns();
    var a := Paying(Accept(Transfer(), PaymentAcceptance.Terms(0, 20, 3, {0})));
    ExactlyOnce.RunSplits(Empty(), Payable(), Retrying());
    ExactlyOnce.RunSplits(start, [a], FailingEarly());
    assert [a][1..] == [] && Run(start, [a]) == Run(Step(start, a), []);
    TransferIsAccepted(start);
    JobFailsEarly(Step(start, a));
    db := Run(Empty(), Payable() + Retrying());
  }

  /** The job failed before its send, and the session for a retry is open. */
  predicate Retryable(db: Db) {
    && db.queue.jobs == [Job(0, 1, JobRetryableFailed, None, 1, 3, 7, None, NoResolution, 3, 3)]
    && db.queue.attempts == map[AttemptKey(0, 1, FailedRetryable) := AttemptRow("cancelled_before_send", None)]
    && |db.sales.orders| == 1 && db.sales.orders[0].status == Delivering
    && db.gate.admins == map[0 := true] && Processing(db.gate, 9)
    && db.gate.sessions == [Session(0, DeliveryAdmin.DELIVERY_RETRY, 10, 7)]
  }

  lemma RetryCommits(db: Db)
    requires Retryable(db)
    ensures var r := DeliveryAdmin.RetryDelivery(db, Ready(3), 9, 0, 3, 0);
            r.Ok? && |r.value.queue.jobs| == 1 && r.value.queue.jobs[0].status == JobPending
  {
  }

  lemma JobFailsEarly(db: Db)
    requires db.queue == Queue([NewJob()], map[]) && Quiet(db.gate, 3, 8)
    requires |db.sales.orders| == 1 && db.sales.orders[0].status == Delivering
    ensures Retryable(Run(db, FailingEarly()))
  {
    var a := Shipping(ClaimJobBatch([0], WORKER, 0));
    var b := Shipping(FailBeforeSend(0, WORKER, true, "cancelled_before_send", 7));
    ExactlyOnce.RunSplits(db, [a, b], Entering(8, DeliveryAdmin.DELIVERY_RETRY));
    RunTwo(db, a, b);
    JobIsClaimed(db);
    JobIsReleased(Step(db, a));
    Entered(Step(Step(db, a), b), 3, 8, DeliveryAdmin.DELIVERY_RETRY);
  }

  function ClaimedJob(): Job {
    Job(0, 1, JobProcessing, Some(Lock(Claimed, WORKER, 0)), 0, 3, 0, None, NoResolution, 2, 3)
  }

  lemma JobIsClaimed(db: Db)
    requires db.queue == Queue([NewJob()], map[])
    ensures ClaimJobs(db.queue, [0], WORKER, 0) == Queue([ClaimedJob()], map[])
  {
    assert [0][1..] == [];
  }

  lemma JobIsReleased(db: Db)
    requires db.queue == Queue([ClaimedJob()], map[])
    ensures var r := Delivery.FinalizeClaimedFailure(db, 0, WORKER, EarlyFailure(true, "cancelled_before_send", 7));
            && r.Ok? && r.value == db.(queue := r.value.queue)
            && r.value.queue.jobs == [Job(0, 1, JobRetryableFailed, None, 1, 3, 7, None, NoResolution, 3, 3)]
            && r.value.queue.attempts ==
               map[AttemptKey(0, 1, FailedRetryable) := AttemptRow("cancelled_before_send", None)]
  {
  }

  // ---------- a confirmed payment without an outcome ----------

  /** The transfer finds no free item; then an administrator closes the case. */
  function Resolving(): seq<Action> {
    [Paying(Accept(Transfer(), PaymentAcceptance.Terms(0, 20, 3, {})))]
    + (Entering(8, PaymentAdmin.PAYMENT_REVIEW) + [Paying(ResolveBy(Ready(3), 9, 0, Resolved, 0))])
  }

  lemma TransferFindsNoItem(db: Db)
    requires db == Bought(db.gate)
    ensures var db' := Step(db, Paying(Accept(Transfer(), PaymentAcceptance.Terms(0, 20, 3, {}))));
            && db'.gate == db.gate
            && db'.till.allocations == []
            && |db'.till.payments| == 1 && db'.till.payments[0].confirmed
            && db'.till.reviews == [Review(Some(0), Some(0), Some(OrderTarget(0)), "out_of_stock", Open)]
  {
    var terms := PaymentAcceptance.Terms(0, 20, 3, {});
    TransferIsForTheOrder(db, terms);
    TransferIsShort(db);
    AcceptanceCommits(db, Transfer(), terms);
  }

  lemma TransferIsShort(db: Db)
    requires db == Bought(db.gate)
    ensures var r := PaymentAcceptance.AcceptForOrder(db, Transfer(), 0, PaymentAcceptance.Terms(0, 20, 3, {}));
            && r.Ok? && r.value.0.gate == db.gate
            && r.value.0.till.allocations == []
            && |r.value.0.till.payments| == 1 && r.value.0.till.payments[0].confirmed
            && r.value.0.till.reviews == [Review(Some(0), Some(0), Some(OrderTarget(0)), "out_of_stock", Open)]
  {
    TransferFindsItsOrder(db);
    OrderIsPaid(db.sales);
    assert ExactSet(db.stock, 0, 1, {}) == {};
  }

  /** A reachable payment is confirmed, was never allocated, and has no open case. */
  lemma OutcomeIsMissing()
    ensures 0 in Anomalies.ConfirmedWithoutOutcome(Run(Empty(), Payable() + Resolving()).till)
  {
    var start := PayableRuns();
    var a := Paying(Accept(Transfer(), PaymentAcceptance.Terms(0, 20, 3, {})));
    var entering := Entering(8, PaymentAdmin.PAYMENT_REVIEW);
    var last := Paying(ResolveBy(Ready(3), 9, 0, Resolved, 0));
    ExactlyOnce.RunSplits(Empty(), Payable(), Resolving());
    ExactlyOnce.RunSplits(start, [a], entering + [last]);
    assert [a][1..] == [] && Run(start, [a]) == Run(Step(start, a), []);
    TransferFindsNoItem(start);
    CaseIsClosed(Step(start, a));
  }

  /** The one payment waits for a person. */
  predicate Short(t: Till) {
    && t.allocations == [] && |t.payments| == 1 && t.payments[0].confirmed
    && t.reviews == [Review(Some(0), Some(0), Some(OrderTarget(0)), "out_of_stock", Open)]
  }

  lemma CaseIsClosed(db: Db)
    requires Quiet(db.gate, 3, 8) && Short(db.till)
    ensures var entering := Entering(8, PaymentAdmin.PAYMENT_REVIEW);
            var db' := Run(db, entering + [Paying(ResolveBy(Ready(3), 9, 0, Resolved, 0))]);
            0 in Anomalies.ConfirmedWithoutOutcome(db'.till)
  {
    var entering := Entering(8, PaymentAdmin.PAYMENT_REVIEW);
    var last := Paying(ResolveBy(Ready(3), 9, 0, Resolved, 0));
    Entered(db, 3, 8, PaymentAdmin.PAYMENT_REVIEW);
    var entered := Run(db, entering);
    ExactlyOnce.RunSplits(db, entering, [last]);
    assert [last][1..] == [] && Run(entered, [last]) == Run(Step(entered, last), []);
    ResolutionCommits(entered);
    PayingSteps(entered, last.payment);
  }

  lemma ResolutionCommits(db: Db)
    requires db.gate.admins == map[0 := true] && Processing(db.gate, 9)
    requires db.gate.sessions == [Session(0, PaymentAdmin.PAYMENT_REVIEW, 10, 7)] && Short(db.till)
    ensures var r := ExecPayment(db, ResolveBy(Ready(3), 9, 0, Resolved, 0));
            r.Ok? && 0 in Anomalies.ConfirmedWithoutOutcome(r.value.till)
  {
    var till := ResolveReview(db.till, 0, Resolved).value;
    assert till.reviews == [Review(Some(0), Some(0), Some(OrderTarget(0)), "out_of_stock", Resolved)];
    assert FindAllocation(till, 0).None?;
  }

  // ---------- a batch that ends after its first event ----------

  function TwoReceived(): seq<Action> {
    [Paying(Receive(3, 0)), Paying(Receive(3, 0)), Paying(ClaimBatch([0, 1], 0, 0))]
  }

  function Claims(status: EventStatus): seq<PaymentEvent> {
    [PaymentEvent(status, 1, 3, 0, 0), PaymentEvent(EventProcessing, 1, 3, 0, 0)]
  }

  lemma TwoAreClaimed()
    ensures Run(Empty(), TwoReceived()) == Empty().(till := Till([], [], [], Claims(EventProcessing)))
  {
    var a, b := Paying(Receive(3, 0)), Paying(ClaimBatch([0, 1], 0, 0));
    RunThree(Empty(), a, a, b);
    var one, two := Step(Empty(), a), Step(Step(Empty(), a), a);
    assert one.till.events == [PaymentEvent(EventReceived, 0, 3, 0, 0)];
    assert two.till.events == [PaymentEvent(EventReceived, 0, 3, 0, 0), PaymentEvent(EventReceived, 0, 3, 0, 0)];
    assert Step(two, b).till.events == Claims(EventProcessing);
  }

  function SomeJob(): PaymentEvents.Job {
    PaymentEvents.Job(10, 1, 5, None)
  }

  /** The first claim of an event of the empty shop, in either direction. */
  function FirstClaim(event: nat, outbound: bool): PaymentEvents.WorkItem {
    PaymentEvents.WorkItem(event, outbound, "", 0, "bank", Text.Decimal(event), REFERENCE, "production", "", None, 5,
                           "VND", 1)
  }

  function Around(before: seq<Action>, acceptance: Fault): PaymentEvents.Conditions {
    PaymentEvents.Conditions(before, PaymentAcceptance.Terms(0, 20, 3, {}), acceptance, [], Fine)
  }

  /** The first event is put under review, but the answer is lost: the reschedule finds
      nothing, the run fails, and the second event stays in processing. */
  lemma LostReplyEndsTheRun()
    ensures var (db, done) := PaymentEvents.Batch(Run(Empty(), TwoReceived()), SomeJob(), 0,
                                                  [FirstClaim(0, false), FirstClaim(1, false)],
                                                      [Around([], Lost), Around([], Fine)]);
            !done && db.till.events == Claims(EventInReview)
  {
    TwoAreClaimed();
    var db := Run(Empty(), TwoReceived());
    var c := PaymentEvents.CommandFor(FirstClaim(0, false), REFERENCE);
    UnknownTransfer(db, c);
    assert PaymentEvents.OfferStep(db, SomeJob(), FirstClaim(0, false), Around([], Lost)).0.till.events ==
           Claims(EventInReview);
  }

  lemma UnknownTransfer(db: Db, c: PaymentAcceptance.PaymentCommand)
    requires db == Empty().(till := Till([], [], [], Claims(EventProcessing))) && c.event == Some(0)
    ensures var r := PaymentAcceptance.AcceptPayment(db, c, PaymentAcceptance.Terms(0, 20, 3, {}));
            r.Ok? && r.value.0.till.events == Claims(EventInReview)
  {
    assert FindReviewOfEvent(db.till, 0).None?;
  }

  /** Another worker takes over the first event when it is stale and completes it: this
      worker's own completion finds nothing, the run fails, and the second event stays in
      processing. */
  lemma TakenOverEventEndsTheRun()
    ensures var others := [Paying(ClaimBatch([0], 9, 4)), Paying(Ignore(0))];
            var (db, done) := PaymentEvents.Batch(Run(Empty(), TwoReceived()), SomeJob(), 0,
                                                  [FirstClaim(0, true), FirstClaim(1, true)],
                                                      [Around(others, Fine), Around([], Fine)]);
            !done && |db.till.events| == 2 && db.till.events[0].status == EventCompleted
            && db.till.events[1] == Claims(EventCompleted)[1]
  {
    TwoAreClaimed();
    var db := Run(Empty(), TwoReceived());
    var a, b := Paying(ClaimBatch([0], 9, 4)), Paying(Ignore(0));
    RunTwo(db, a, b);
    assert Step(db, a).till.events == [PaymentEvent(EventProcessing, 2, 3, 0, 9), Claims(EventProcessing)[1]];
  }

  // ---------- an imported item that does not read back ----------

  /** The item of a line that ends in two carriage returns keeps one of them, and
      loses it when it is written back and imported again. */
  lemma ItemLosesItsCr()
    ensures InventoryImport.Payloads(Text.Split("a\r\r", InventoryImport.LF)) == ["a\r"]
    ensures Text.Join(["a\r"], InventoryImport.LF) == "a\r"
    ensures InventoryImport.Payloads(Text.Split("a\r", InventoryImport.LF)) == ["a"]
  {
    OneLine("a\r\r");
    OneLine("a\r");
    OnePayload("a\r\r", "a\r");
    OnePayload("a\r", "a");
  }

  lemma OnePayload(line: string, item: string)
    requires line == item + "\r" && item != "" && item[0] == 'a'
    ensures InventoryImport.Payloads([line]) == [item]
  {
    assert InventoryImport.Chomp(line) == item;
    assert [line][..0] == [];
  }

  lemma {:induction false} OneLine(line: string)
    requires InventoryImport.LF !in line
    ensures Text.Split(line, InventoryImport.LF) == [line]
  {
    if line == "" {
    } else {
      OneLine(line[..|line| - 1]);
      assert line == line[..|line| - 1] + [line[|line| - 1]];
    }
  }
}
