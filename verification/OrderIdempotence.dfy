/** Creating an order is idempotent, and what an order was created with never
    changes: its rows are only ever moved along and its history only grows. */
module OrderIdempotence {
  import opened Results
  import opened Domain
  import opened Agreement
  import opened Database
  import opened Delivery
  import opened DeliveryAdmin
  import opened GateOutcomes
  import opened OrderInvariant
  import opened OrderStore
  import opened PaymentAcceptance
  import opened PaymentAdmin
  import opened SalesTable
  import opened Shop
  import opened ShopInvariant
  import opened StockTable
  import opened WalletStore
  import GateTable
  import TillTable
  import WalletTable

  /** What an order was created with. */
  ghost predicate SameOrder(a: Order, b: Order) {
    b == a.(status := b.status, version := b.version)
  }

  /** Later sales: no order disappears or changes but for status and version, and
      every history only grows. */
  ghost predicate OrdersKept(s: Sales, s': Sales) {
    && |s.orders| <= |s'.orders|
    && (forall o :: 0 <= o < |s.orders| ==> SameOrder(s.orders[o], s'.orders[o]))
    && (forall o :: 0 <= o < |s.orders| ==> HistoryOf(s, o) <= HistoryOf(s', o))
  }

  lemma KeptIsTransitive(a: Sales, b: Sales, c: Sales)
    requires OrdersKept(a, b) && OrdersKept(b, c)
    ensures OrdersKept(a, c)
  {
    forall o | 0 <= o < |a.orders|
      ensures SameOrder(a.orders[o], c.orders[o]) && HistoryOf(a, o) <= HistoryOf(c, o)
    {
      assert SameOrder(a.orders[o], b.orders[o]) && SameOrder(b.orders[o], c.orders[o]);
      assert HistoryOf(a, o) <= HistoryOf(b, o) && HistoryOf(b, o) <= HistoryOf(c, o);
    }
  }

  lemma MoveKeeps(s: Sales, o: nat, from: OrderStatus, to: OrderStatus, reason: string)
    requires Move(s, o, from, to, reason).Ok?
    ensures OrdersKept(s, Move(s, o, from, to, reason).value)
  {
  }

  lemma {:induction false} InsertKeepsOrders(s: Sales, draft: Order, references: seq<string>)
    requires InsertWithReference(s, draft, references).Ok?
    ensures OrdersKept(s, InsertWithReference(s, draft, references).value.0)
    decreases |references|
  {
    var order := draft.(reference := references[0]);
    if InsertPendingOrder(s, order).None? && FindByKey(s, draft.user, draft.key).None? {
      InsertKeepsOrders(s, draft, references[1..]);
    }
  }

  lemma {:induction false} ExpireKeepsOrders(s: Sales, picked: seq<nat>, now: int)
    ensures OrdersKept(s, ExpireOrders(s, picked, now))
    decreases |picked|
  {
    if picked == [] {
    } else {
      var next := if Overdue(s, picked[0], now) then Expire(s, picked[0]) else s;
      if Overdue(s, picked[0], now) {
        MoveKeeps(s, picked[0], PendingPayment, Expired, "payment_window_elapsed");
      }
      ExpireKeepsOrders(next, picked[1..], now);
      KeptIsTransitive(s, next, ExpireOrders(s, picked, now));
    }
  }

  lemma CreateKeepsOrders(db: Db, request: OrderRequest, update: nat, terms: OrderTerms, drawn: seq<string>)
    requires CreateOrder(db, request, update, terms, drawn).Ok?
    ensures OrdersKept(db.sales, CreateOrder(db, request, update, terms, drawn).value.0.sales)
  {
    if FindByKey(db.sales, request.user, request.key).None? {
      var references := if |drawn| > REFERENCE_ATTEMPTS then drawn[..REFERENCE_ATTEMPTS] else drawn;
      InsertKeepsOrders(db.sales, Draft(db, request, terms).value, references);
    }
  }

  lemma CancelKeepsOrders(db: Db, user: nat, o: nat, version: nat, update: nat, now: int)
    requires CancelOrder(db, user, o, version, update, now).Ok?
    ensures OrdersKept(db.sales, CancelOrder(db, user, o, version, update, now).value.0.sales)
  {
    if db.sales.orders[o].status != Cancelled {
      MoveKeeps(db.sales, o, PendingPayment, Cancelled, "customer_cancelled");
    }
  }

  lemma OrderingKeepsOrders(db: Db, a: OrderAction)
    requires ExecOrder(db, a).Ok?
    ensures OrdersKept(db.sales, ExecOrder(db, a).value.sales)
  {
    match a
    case Create(request, update, terms, drawn) => CreateKeepsOrders(db, request, update, terms, drawn);
    case CancelBy(user, o, version, update, now) => CancelKeepsOrders(db, user, o, version, update, now);
    case ExpireBatch(picked, now) => ExpireKeepsOrders(db.sales, picked, now);
    case _ =>
  }

  lemma HandoffKeepsOrders(db: Db, o: nat, now: int, maxAttempts: nat)
    requires Handoff(db, o, now, maxAttempts).Ok?
    ensures OrdersKept(db.sales, Handoff(db, o, now, maxAttempts).value.0.sales)
  {
    if o < |db.sales.orders| && Move(db.sales, o, Reserving, Delivering, "delivery_job_created").Ok? {
      MoveKeeps(db.sales, o, Reserving, Delivering, "delivery_job_created");
    }
  }

  lemma FulfilKeepsOrders(db: Db, o: nat, payment: nat, claimed: set<nat>, terms: Terms)
    requires o < |db.sales.orders|
    requires Fulfil(db, o, payment, claimed, terms).Ok?
    ensures OrdersKept(db.sales, Fulfil(db, o, payment, claimed, terms).value.sales)
  {
    var stock := InsertMappings(Reserve(db.stock, o, terms.until, claimed), o, claimed).value;
    var till := TillTable.InsertAllocation(db.till,
                                           TillTable.Allocation(payment, TillTable.OrderTarget(o),
                                                                db.sales.orders[o].total)).value;
    HandoffKeepsOrders(db.(stock := stock, till := till), o, terms.now, terms.maxAttempts);
  }

  lemma PassingKeepsOrders(s: Sales, o: nat, r1: string, r2: string)
    requires PassThroughPaid(s, o, r1, r2).Ok?
    ensures OrdersKept(s, PassThroughPaid(s, o, r1, r2).value)
  {
    var s1 := Move(s, o, PendingPayment, Paid, r1).value;
    var s2 := Move(s1, o, Paid, Reserving, r2).value;
    MoveKeeps(s, o, PendingPayment, Paid, r1);
    MoveKeeps(s1, o, Paid, Reserving, r2);
    KeptIsTransitive(s, s1, s2);
  }

  lemma AcceptKeepsOrders(db: Db, c: PaymentCommand, o: nat, terms: Terms)
    requires o < |db.sales.orders|
    requires AcceptForOrder(db, c, o, terms).Ok?
    ensures OrdersKept(db.sales, AcceptForOrder(db, c, o, terms).value.0.sales)
  {
    var order := db.sales.orders[o];
    var claimed := ExactSet(db.stock, order.product, order.quantity, terms.offered);
    if OrderProblem(order, c, terms.now) == "" {
      PassingKeepsOrders(db.sales, o, "payment_accepted", "inventory_claim_started");
      var s2 := PassThroughPaid(db.sales, o, "payment_accepted", "inventory_claim_started").value;
      if |claimed| == order.quantity {
        var till := TillTable.InsertPayment(db.till, PaymentFor(c, Some(o), order.user, true)).value;
        var _, handed := AcceptedForOrder(db, c, o, terms);
        FulfilKeepsOrders(db.(sales := s2, till := till), o, |db.till.payments|, claimed, terms);
      } else {
        MoveKeeps(s2, o, Reserving, OutOfStock, "post_payment_inventory_insufficient");
      }
      KeptIsTransitive(db.sales, s2, AcceptForOrder(db, c, o, terms).value.0.sales);
    }
  }

  lemma AcceptPaymentKeepsOrders(db: Db, c: PaymentCommand, terms: Terms)
    requires AcceptPayment(db, c, terms).Ok?
    ensures OrdersKept(db.sales, AcceptPayment(db, c, terms).value.0.sales)
  {
    OnlyOrderPaymentsMove(db, c, terms);
    var order := FindByReference(db.sales, c.reference);
    if order.Some? && AcceptForOrder(db, c, order.value, terms).Ok? {
      AcceptKeepsOrders(db, c, order.value, terms);
    }
  }

  lemma WalletKeepsOrders(db: Db, user: nat, o: nat, key: string, update: nat, terms: Terms)
    requires PayOrder(db, user, o, key, update, terms).Ok?
    ensures OrdersKept(db.sales, PayOrder(db, user, o, key, update, terms).value.0.sales)
  {
    if TillTable.FindPayment(db.till, WALLET, db.sales.orders[o].environment, WalletTransaction(o)).None? {
      var (ensured, account) := WalletTable.EnsureAccount(db.wallets, user);
      FromWalletKeepsOrders(db.(wallets := ensured), account, user, o, key, update, terms);
    }
  }

  lemma FromWalletKeepsOrders(db: Db, account: nat, user: nat, o: nat, key: string, update: nat, terms: Terms)
    requires o < |db.sales.orders| && account < |db.wallets.accounts|
    requires PayFrom(db, account, user, o, key, update, terms).Ok?
    ensures OrdersKept(db.sales, PayFrom(db, account, user, o, key, update, terms).value.0.sales)
  {
    var order := db.sales.orders[o];
    var claimed := ExactSet(db.stock, order.product, order.quantity, terms.offered);
    var till := TillTable.InsertPayment(db.till, WalletPaymentRow(order, user, o)).value;
    var s2, wallets, handed := PaidFromAccount(db, account, user, o, key, update, terms);
    PassingKeepsOrders(db.sales, o, "wallet_payment_accepted", "wallet_inventory_claimed");
    FulfilKeepsOrders(db.(sales := s2, till := till, wallets := wallets), o, |db.till.payments|, claimed, terms);
    KeptIsTransitive(db.sales, s2, handed.sales);
  }

  lemma ManualKeepsOrders(db: Db, ticket: GateTable.Ticket, update: nat, c: PaymentCommand, terms: Terms)
    requires ManualAccept(db, ticket, update, c, terms).Ok?
    ensures OrdersKept(db.sales, ManualAccept(db, ticket, update, c, terms).value.0.sales)
  {
    AcceptPaymentKeepsOrders(db, ByHand(c), terms);
  }

  lemma PayingKeepsOrders(db: Db, a: PaymentAction)
    requires ExecPayment(db, a).Ok?
    ensures OrdersKept(db.sales, ExecPayment(db, a).value.sales)
  {
    match a
    case Accept(c, terms) => AcceptPaymentKeepsOrders(db, c, terms);
    case AcceptBy(ticket, update, c, terms) => ManualKeepsOrders(db, ticket, update, c, terms);
    case PayFromWallet(user, o, key, update, terms) => WalletKeepsOrders(db, user, o, key, update, terms);
    case _ =>
  }

  lemma {:induction false} BackfillKeepsOrders(db: Db, picked: seq<nat>, now: int, maxAttempts: nat)
    requires Backfill(db, picked, now, maxAttempts).Ok?
    ensures OrdersKept(db.sales, Backfill(db, picked, now, maxAttempts).value.0.sales)
    decreases |picked|
  {
    if picked == [] {
    } else {
      if Backlogged(db, picked[0]) {
        var next := Handoff(db, picked[0], now, maxAttempts).value.0;
        HandoffKeepsOrders(db, picked[0], now, maxAttempts);
        BackfillKeepsOrders(next, picked[1..], now, maxAttempts);
        KeptIsTransitive(db.sales, next.sales, Backfill(db, picked, now, maxAttempts).value.0.sales);
      } else {
        BackfillKeepsOrders(db, picked[1..], now, maxAttempts);
      }
    }
  }

  lemma FinishKeepsOrders(db: Db, j: nat, worker: string, evidence: Evidence)
    requires FinalizeSuccess(db, j, worker, evidence).Ok?
    ensures OrdersKept(db.sales, FinalizeSuccess(db, j, worker, evidence).value.sales)
  {
    if db.queue.jobs[j].status != JobCompleted {
      MoveKeeps(db.sales, db.queue.jobs[j].order, Delivering, Delivered, "telegram_delivery_confirmed");
    }
  }

  lemma FailKeepsOrders(db: Db, j: nat, worker: string, failure: Failure)
    ensures FinalizeFailure(db, j, worker, failure).Ok? ==>
            OrdersKept(db.sales, FinalizeFailure(db, j, worker, failure).value.sales)
    ensures FinalizeClaimedFailure(db, j, worker, failure).Ok? ==>
            OrdersKept(db.sales, FinalizeClaimedFailure(db, j, worker, failure).value.sales)
  {
    if j < |db.queue.jobs| {
      var o := db.queue.jobs[j].order;
      if Move(db.sales, o, Delivering, DeliveryFailed, failure.code).Ok? {
        MoveKeeps(db.sales, o, Delivering, DeliveryFailed, failure.code);
      }
    }
  }

  lemma RetryKeepsOrders(db: Db, ticket: GateTable.Ticket, update: nat, j: nat, version: nat, now: int)
    requires RetryDelivery(db, ticket, update, j, version, now).Ok?
    ensures OrdersKept(db.sales, RetryDelivery(db, ticket, update, j, version, now).value.sales)
  {
    var o := db.queue.jobs[j].order;
    if Move(db.sales, o, DeliveryFailed, Delivering, "manual_redelivery_verified").Ok? {
      MoveKeeps(db.sales, o, DeliveryFailed, Delivering, "manual_redelivery_verified");
    }
  }

  lemma CompleteKeepsOrders(db: Db, ticket: GateTable.Ticket, update: nat, j: nat, version: nat, message: int, now: int)
    requires CompleteDelivery(db, ticket, update, j, version, message, now).Ok?
    ensures OrdersKept(db.sales, CompleteDelivery(db, ticket, update, j, version, message, now).value.sales)
  {
    MoveKeeps(db.sales, db.queue.jobs[j].order, Delivering, Delivered, "manual_delivery_verified");
  }

  lemma ShippingKeepsOrders(db: Db, a: DeliveryAction)
    requires ExecDelivery(db, a).Ok?
    ensures OrdersKept(db.sales, ExecDelivery(db, a).value.sales)
  {
    match a
    case BackfillBatch(picked, now, maxAttempts) => BackfillKeepsOrders(db, picked, now, maxAttempts);
    case Succeed(j, worker, evidence) => FinishKeepsOrders(db, j, worker, evidence);
    case FailSend(j, worker, failure) => FailKeepsOrders(db, j, worker, failure);
    case FailBeforeSend(j, worker, retryable, code, nextAttemptAt) =>
      FailKeepsOrders(db, j, worker, EarlyFailure(retryable, code, nextAttemptAt));
    case RetryBy(ticket, update, j, version, now) => RetryKeepsOrders(db, ticket, update, j, version, now);
    case CompleteBy(ticket, update, j, version, message, now) =>
      CompleteKeepsOrders(db, ticket, update, j, version, message, now);
    case _ =>
  }

  lemma SetupKeepsOrders(db: Db, a: SetupAction)
    requires ExecSetup(db, a).Ok?
    ensures OrdersKept(db.sales, ExecSetup(db, a).value.sales)
  {
    SetupLeavesOrders(db, a);
    SameOrdersAreKept(db.sales, ExecSetup(db, a).value.sales);
  }

  lemma SetupLeavesOrders(db: Db, a: SetupAction)
    requires ExecSetup(db, a).Ok?
    ensures var s' := ExecSetup(db, a).value.sales; s'.orders == db.sales.orders && s'.history == db.sales.history
  {
  }

  lemma SameOrdersAreKept(s: Sales, s': Sales)
    requires s'.orders == s.orders && s'.history == s.history
    ensures OrdersKept(s, s')
  {
  }

  /** No committed step rewrites what an order was created with, or its history. */
  lemma StepKeepsOrders(db: Db, a: Action)
    ensures OrdersKept(db.sales, Step(db, a).sales)
  {
    if Exec(db, a).Ok? {
      match a
      case Setup(action) => SetupKeepsOrders(db, action);
      case AtGate(_) =>
      case Ordering(action) => OrderingKeepsOrders(db, action);
      case Paying(action) => PayingKeepsOrders(db, action);
      case Shipping(action) => ShippingKeepsOrders(db, action);
    }
  }

  lemma {:induction false} RunKeepsOrders(db: Db, actions: seq<Action>)
    ensures OrdersKept(db.sales, Run(db, actions).sales)
    decreases |actions|
  {
    if actions == [] {
    } else {
      var next := Step(db, actions[0]);
      StepKeepsOrders(db, actions[0]);
      RunKeepsOrders(next, actions[1..]);
      KeptIsTransitive(db.sales, next.sales, Run(db, actions).sales);
    }
  }

  // ---------- idempotence ----------

  /** The drawn reference is the first of the first eight that no order has. */
  ghost predicate FirstUnused(s: Sales, drawn: seq<string>, reference: string) {
    exists k :: 0 <= k < |drawn| && k < 8 && drawn[k] == reference && Unused(s, reference)
                && forall i :: 0 <= i < k ==> !Unused(s, drawn[i])
  }

  ghost predicate Unused(s: Sales, reference: string) {
    forall o :: 0 <= o < |s.orders| ==> s.orders[o].reference != reference
  }

  /** The order that has the key of the request. */
  predicate HasKey(s: Sales, request: OrderRequest, o: nat) {
    o < |s.orders| && s.orders[o].user == request.user && s.orders[o].key == request.key
  }

  /** What a successful creation did: it found the order that already had the key, or
      wrote one pending order with the exact total, the first unused reference and one
      opening history row; either way the update is completed and nothing else differs. */
  lemma CreationIsExact(db: Db, request: OrderRequest, update: nat, terms: OrderTerms, drawn: seq<string>)
    requires Inv(db)
    requires CreateOrder(db, request, update, terms, drawn).Ok?
    ensures var (db', o, duplicate) := CreateOrder(db, request, update, terms, drawn).value;
            && db'.gate == db.gate.(receipts := db.gate.receipts[update := GateTable.ReceiptCompleted])
            && (duplicate ==> HasKey(db.sales, request, o) && db' == db.(gate := db'.gate))
            && (!duplicate ==>
                  && (forall p :: 0 <= p < |db.sales.orders| ==> !HasKey(db.sales, request, p))
                  && request.product < |db.sales.products| && o == |db.sales.orders| < |db'.sales.orders|
                  && var price := db.sales.products[request.product].price;
                  && price * request.quantity <= 0x7FFF_FFFF_FFFF_FFFF
                  && var reference := db'.sales.orders[o].reference;
                  && FirstUnused(db.sales, drawn, reference)
                  && db' == db.(gate := db'.gate, sales := db.sales.(
                       orders := db.sales.orders + [
                         Order(request.user, PendingPayment, 1, request.product, price, request.quantity,
                               price * request.quantity, reference, request.key, terms.now + terms.expiry,
                               terms.environment, request.bank)],
                       history := db.sales.history[o := [HistoryRow(None, PendingPayment, "order_created")]])))
  {
    if FindByKey(db.sales, request.user, request.key).None? {
      assert forall p :: 0 <= p < |db.sales.orders| ==> !HasKey(db.sales, request, p);
      var draft := Draft(db, request, terms).value;
      var references := if |drawn| > REFERENCE_ATTEMPTS then drawn[..REFERENCE_ATTEMPTS] else drawn;
      DraftIsExact(db, request, terms);
      assert |db.sales.orders| !in db.sales.history by {
        assert Holds(SalesSound, db);
      }
      FirstInsertion(db.sales, draft, drawn, references);
    }
  }

  lemma FirstInsertion(s: Sales, draft: Order, drawn: seq<string>, references: seq<string>)
    requires FindByKey(s, draft.user, draft.key).None? && |s.orders| !in s.history
    requires draft.status == PendingPayment && draft.version == 1
    requires references == if |drawn| > REFERENCE_ATTEMPTS then drawn[..REFERENCE_ATTEMPTS] else drawn
    requires InsertWithReference(s, draft, references).Ok?
    ensures var (s', o, duplicate) := InsertWithReference(s, draft, references).value;
            && !duplicate && o == |s.orders| < |s'.orders|
            && FirstUnused(s, drawn, s'.orders[o].reference)
            && s' == s.(orders := s.orders + [draft.(reference := s'.orders[o].reference)],
                        history := s.history[o := [HistoryRow(None, PendingPayment, "order_created")]])
  {
    InsertionIsExact(s, draft, references);
    var reference := InsertWithReference(s, draft, references).value.0.orders[|s.orders|].reference;
    var k :| 0 <= k < |references| && references[k] == reference && Unused(s, references[k])
             && forall i :: 0 <= i < k ==> !Unused(s, references[i]);
    assert drawn[k] == reference && forall i :: 0 <= i < k ==> drawn[i] == references[i];
    var opening := HistoryRow(None, PendingPayment, "order_created");
    assert HistoryOf(s.(orders := s.orders + [draft.(reference := reference)]), |s.orders|) + [opening] == [opening];
  }

  /** With a new key the loop inserts the draft under the first unused reference. */
  lemma {:induction false} InsertionIsExact(s: Sales, draft: Order, references: seq<string>)
    requires FindByKey(s, draft.user, draft.key).None?
    requires draft.status == PendingPayment && draft.version == 1
    requires InsertWithReference(s, draft, references).Ok?
    ensures var (s', o, duplicate) := InsertWithReference(s, draft, references).value;
            && !duplicate && o == |s.orders| < |s'.orders|
            && s' == InsertHistory(s.(orders := s.orders + [draft.(reference := s'.orders[o].reference)]), o, None,
                                   PendingPayment, "order_created")
            && exists k :: 0 <= k < |references| && references[k] == s'.orders[o].reference
                           && Unused(s, references[k]) && forall i :: 0 <= i < k ==> !Unused(s, references[i])
    decreases |references|
  {
    if FindByReference(s, references[0]).None? {
      assert Unused(s, references[0]);
    } else {
      var rest := references[1..];
      InsertionIsExact(s, draft, rest);
      var reference := InsertWithReference(s, draft, rest).value.0.orders[|s.orders|].reference;
      var k :| 0 <= k < |rest| && rest[k] == reference && Unused(s, rest[k])
               && forall i :: 0 <= i < k ==> !Unused(s, rest[i]);
      assert !Unused(s, references[0]);
      assert references[k + 1] == reference;
      assert forall i :: 0 <= i < k + 1 ==> !Unused(s, references[i]) by {
        assert forall i :: 1 <= i < k + 1 ==> references[i] == rest[i - 1];
      }
    }
  }

  /** A draft can be made: the product is on sale, its exact total fits, enough items
      are free and the bank is active. */
  predicate Draftable(db: Db, request: OrderRequest, terms: OrderTerms) {
    && request.product < |db.sales.products|
    && var product := db.sales.products[request.product];
    && product.active && product.categoryActive && product.fromInventory
    && 0 <= product.price && product.price * request.quantity <= MAX_INT64
    && |Claimable(db.stock, request.product)| >= request.quantity
    && ActiveBank(db.sales, request.bank, terms.environment)
  }

  /** One of the references that may be tried is unused. */
  predicate SomeUnused(s: Sales, drawn: seq<string>) {
    exists k :: 0 <= k < |drawn| && k < 8 && FindByReference(s, drawn[k]).None?
  }

  /** A creation commits if and only if the request is in bounds, the user is active,
      the update is being processed, and the key is known already or a draft can be
      made and one of the first eight drawn references is unused. */
  lemma CreationCommits(db: Db, request: OrderRequest, update: nat, terms: OrderTerms, drawn: seq<string>)
    ensures CreateOrder(db, request, update, terms, drawn).Ok? <==>
              && request.key != "" && 0 < request.quantity <= terms.maxQuantity && terms.expiry > 0
              && request.user < |db.sales.users| && db.sales.users[request.user].active
              && BeingProcessed(db.gate, update)
              && (FindByKey(db.sales, request.user, request.key).Some?
                  || (Draftable(db, request, terms) && SomeUnused(db.sales, drawn)))
  {
    if request.quantity > 0 && FindByKey(db.sales, request.user, request.key).None? {
      DraftCommits(db, request, terms);
      var references := if |drawn| > REFERENCE_ATTEMPTS then drawn[..REFERENCE_ATTEMPTS] else drawn;
      if Draft(db, request, terms).Ok? {
        DraftIsExact(db, request, terms);
        InsertCommits(db.sales, Draft(db, request, terms).value, references);
        SomeUnusedAmong(db.sales, drawn, references);
      }
    }
  }

  lemma DraftCommits(db: Db, request: OrderRequest, terms: OrderTerms)
    requires request.quantity > 0
    ensures Draft(db, request, terms).Ok? <==> Draftable(db, request, terms)
  {
    if request.product < |db.sales.products| && db.sales.products[request.product].price >= 0 {
      MultiplyExact(db.sales.products[request.product].price, request.quantity);
    }
  }

  lemma SomeUnusedAmong(s: Sales, drawn: seq<string>, references: seq<string>)
    requires references == if |drawn| > REFERENCE_ATTEMPTS then drawn[..REFERENCE_ATTEMPTS] else drawn
    ensures SomeUnused(s, drawn) <==> exists k :: 0 <= k < |references| && FindByReference(s, references[k]).None?
  {
    if SomeUnused(s, drawn) {
      var k :| 0 <= k < |drawn| && k < 8 && FindByReference(s, drawn[k]).None?;
      assert references[k] == drawn[k];
    }
    if exists k :: 0 <= k < |references| && FindByReference(s, references[k]).None? {
      var k :| 0 <= k < |references| && FindByReference(s, references[k]).None?;
      assert references[k] == drawn[k];
    }
  }

  /** With a new key, the loop inserts if and only if some reference is unused. */
  lemma {:induction false} InsertCommits(s: Sales, draft: Order, references: seq<string>)
    requires FindByKey(s, draft.user, draft.key).None?
    ensures InsertWithReference(s, draft, references).Ok? <==>
              exists k :: 0 <= k < |references| && FindByReference(s, references[k]).None?
    decreases |references|
  {
    if references == [] {
    } else {
      var rest := references[1..];
      InsertCommits(s, draft, rest);
      assert references == [references[0]] + rest;
      if FindByReference(s, references[0]).Some? {
        forall k | 0 <= k < |references| && FindByReference(s, references[k]).None?
          ensures exists i :: 0 <= i < |rest| && FindByReference(s, rest[i]).None?
        {
          assert rest[k - 1] == references[k];
        }
      }
    }
  }

  /** Any later creation with the same user and key, after any run and whatever else
      it asks for, answers with the same order and changes no row but its receipt. */
  lemma LaterCreationsReturnTheOrder(db: Db, first: OrderRequest, update: nat, terms: OrderTerms, drawn: seq<string>,
                                     actions: seq<Action>, again: OrderRequest, update': nat, terms': OrderTerms,
                                         drawn': seq<string>)
    requires Inv(db)
    requires CreateOrder(db, first, update, terms, drawn).Ok?
    requires again.user == first.user && again.key == first.key
    requires CreateOrder(Run(CreateOrder(db, first, update, terms, drawn).value.0, actions), again, update', terms',
                         drawn').Ok?
    ensures var (created, o, _) := CreateOrder(db, first, update, terms, drawn).value;
            var later := Run(created, actions);
            var (db', o', duplicate) := CreateOrder(later, again, update', terms', drawn').value;
            o' == o && duplicate && db' == later.(gate := db'.gate)
  {
    var (created, o, _) := CreateOrder(db, first, update, terms, drawn).value;
    CreationIsExact(db, first, update, terms, drawn);
    CreateKeeps(db, first, update, terms, drawn);
    KeyStaysKnown(created, actions, o);
    KnownKeyIsReturned(Run(created, actions), again, update', terms', drawn', o);
  }

  lemma KeyStaysKnown(db: Db, actions: seq<Action>, o: nat)
    requires Inv(db) && o < |db.sales.orders|
    ensures FindByKey(Run(db, actions).sales, db.sales.orders[o].user, db.sales.orders[o].key) == Some(o)
  {
    RunKeepsOrders(db, actions);
    var later := Run(db, actions);
    assert SameOrder(db.sales.orders[o], later.sales.orders[o]);
    assert SalesOk(later.sales) by {
      RunKeeps(db, actions);
      assert Holds(SalesSound, later);
    }
    OneOrderPerKey(later.sales, o);
  }

  lemma OneOrderPerKey(s: Sales, o: nat)
    requires SalesOk(s) && o < |s.orders|
    ensures FindByKey(s, s.orders[o].user, s.orders[o].key) == Some(o)
  {
  }

  lemma KnownKeyIsReturned(db: Db, request: OrderRequest, update: nat, terms: OrderTerms, drawn: seq<string>, o: nat)
    requires FindByKey(db.sales, request.user, request.key) == Some(o)
    requires CreateOrder(db, request, update, terms, drawn).Ok?
    ensures var (db', o', duplicate) := CreateOrder(db, request, update, terms, drawn).value;
            o' == o && duplicate && db' == db.(gate := db'.gate)
  {
  }
}
