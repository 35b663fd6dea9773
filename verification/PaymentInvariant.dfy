/** Payment acceptance, wallet transactions and payment events keep the invariant. */
module PaymentInvariant {
  import opened Results
  import opened Domain
  import opened Agreement
  import opened Database
  import opened DeliveryInvariant
  import opened GateTable
  import opened PaymentAcceptance
  import opened PaymentAdmin
  import opened QueueTable
  import opened SalesTable
  import opened StockTable
  import opened Text
  import opened TillTable
  import opened WalletStore
  import opened WalletTable

  // ---------- the path of a paid order ----------

  lemma MovesCompose(a: Sales, b: Sales, c: Sales, o: nat)
    requires OnlyMoved(a, b, o) && OnlyMoved(b, c, o)
    ensures OnlyMoved(a, c, o)
  {
    forall p: nat | p != o
      ensures HistoryOf(c, p) == HistoryOf(a, p)
    {
      assert HistoryOf(b, p) == HistoryOf(a, p);
    }
  }

  /** A pending order goes through Paid and Reserving to its first resting status
      within one transaction. */
  lemma PaidPath(s: Sales, o: nat, to: OrderStatus, r1: string, r2: string, r3: string)
    requires SalesOk(s)
    requires o < |s.orders| && s.orders[o].status == PendingPayment
    requires to in {Delivering, OutOfStock}
    ensures PassThroughPaid(s, o, r1, r2).Ok?
    ensures var s2 := PassThroughPaid(s, o, r1, r2).value;
            && OnlyMoved(s, s2, o)
            && s2.orders[o].status == Reserving
            && Move(s2, o, Reserving, to, r3).Ok?
            && var s3 := Move(s2, o, Reserving, to, r3).value;
            && OnlyMoved(s, s3, o)
            && s3.orders[o].status == to
            && SalesOk(s3)
  {
    assert OrderOk(s, o);
    MoveKeepsPath(s, o, PendingPayment, Paid, r1);
    var s1 := Move(s, o, PendingPayment, Paid, r1).value;
    MoveKeepsPath(s1, o, Paid, Reserving, r2);
    var s2 := Move(s1, o, Paid, Reserving, r2).value;
    MoveKeepsPath(s2, o, Reserving, to, r3);
    var s3 := Move(s2, o, Reserving, to, r3).value;
    MovesCompose(s, s1, s2, o);
    MovesCompose(s, s2, s3, o);
    SalesFrame(s, s3, o);
  }

  // ---------- steps of the till alone ----------

  lemma TillKept(s: Sales, t: Till, t': Till)
    requires TillAgrees(s, t)
    requires t'.allocations == t.allocations
    ensures TillAgrees(s, t')
  {
    forall o | 0 <= o < |s.orders|
      ensures PaidIffFulfilling(s, t', o)
    {
      assert PaidIffFulfilling(s, t, o);
      SameAllocationsSamePaid(t, t', OrderTarget(o));
    }
    forall a | 0 <= a < |t'.allocations|
      ensures AllocationFits(s, t', a)
    {
      assert AllocationFits(s, t, a);
    }
  }

  /** A till that grows without allocating. */
  lemma TillGrows(db: Db, t': Till)
    requires Inv(db)
    requires TillOk(t')
    requires t'.allocations == db.till.allocations
    requires db.till.payments <= t'.payments
    ensures Inv(db.(till := t'))
  {
    assert Holds(PaymentsMatch, db) && Holds(TopupsMatch, db) && Holds(DebitsMatch, db);
    TillKept(db.sales, db.till, t');
    TopupsKept(db.till, t', db.wallets, db.wallets);
    DebitsKept(db.sales, db.sales, db.till, t', db.wallets, db.wallets);
    forall part
      ensures Holds(part, db.(till := t'))
    {
      assert Holds(part, db);
    }
  }

  /** The event of a command is being processed when the command is decided. */
  predicate Locked(t: Till, event: Option<nat>) {
    event.Some? ==> event.value < |t.events| && t.events[event.value].status == EventProcessing
  }

  lemma ReviewKeeps(db: Db, c: PaymentCommand, payment: Option<nat>, target: Option<Target>, reason: string)
    requires Inv(db)
    requires Locked(db.till, c.event)
    requires payment.Some? ==> payment.value < |db.till.payments|
    ensures RecordReview(db, c, payment, target, reason).Ok?
    ensures Inv(RecordReview(db, c, payment, target, reason).value.0)
  {
    assert Holds(TillSound, db);
    ReviewKeepsTill(db.till, Review(c.event, payment, target, reason, Open));
    TillGrows(db, RecordReview(db, c, payment, target, reason).value.0.till);
  }

  lemma KnownPaymentKeeps(db: Db, c: PaymentCommand, p: nat)
    requires Inv(db)
    requires Locked(db.till, c.event)
    requires p < |db.till.payments|
    ensures HandleExisting(db, c, p).Ok?
    ensures Inv(HandleExisting(db, c, p).value.0)
  {
    var existing := db.till.payments[p];
    var target := if existing.order.Some? then Some(OrderTarget(existing.order.value)) else None;
    if !SameEvidence(existing, c) {
      ReviewKeeps(db, c, Some(p), target, "transaction_conflict");
    } else if FindAllocation(db.till, p).Some? {
      assert Holds(TillSound, db);
      var t' := FinishEvent(db.till, c.event, EventCompleted).value;
      EventKeepsTill(db.till, t');
      TillGrows(db, t');
    } else {
      ReviewKeeps(db, c, Some(p), target, "duplicate_unallocated");
    }
  }

  /** A recorded payment goes under review in the same transaction. */
  lemma ReviewedPaymentKeeps(db: Db, c: PaymentCommand, payment: Payment, target: Option<Target>, reason: string)
    requires Inv(db)
    requires Locked(db.till, c.event)
    requires InsertPayment(db.till, payment).Ok?
    ensures var recorded := db.(till := InsertPayment(db.till, payment).value);
            var r := RecordReview(recorded, c, Some(|db.till.payments|), target, reason);
            && r.Ok?
            && Inv(r.value.0)
            && r.value.0 == db.(till := r.value.0.till)
            && r.value.0.till.payments == db.till.payments + [payment]
            && r.value.0.till.allocations == db.till.allocations
  {
    assert Holds(TillSound, db);
    var review := Review(c.event, Some(|db.till.payments|), target, reason, Open);
    ReviewedPaymentKeepsTill(db.till, payment, review);
    var recorded := db.(till := InsertPayment(db.till, payment).value);
    TillGrows(db, RecordReview(recorded, c, Some(|db.till.payments|), target, reason).value.0.till);
  }

  // ---------- an order that is paid and claimed ----------

  /** The items claimed for an order that held none. */
  lemma ClaimedHoldings(db: Db, s': Sales, o: nat, until: int, claimed: set<nat>)
    requires StockOk(db.stock) && StockAgrees(db.sales, db.stock)
    requires OnlyMoved(db.sales, s', o)
    requires db.sales.orders[o].status == PendingPayment && s'.orders[o].status in {Delivering, Reserving}
    requires claimed <= Claimable(db.stock, db.sales.orders[o].product)
    requires |claimed| == db.sales.orders[o].quantity
    ensures var k := InsertMappings(Reserve(db.stock, o, until, claimed), o, claimed);
            && k.Ok?
            && StockOk(k.value)
            && |Deliverable(k.value, o)| == db.sales.orders[o].quantity
            && (s'.orders[o].status == Delivering ==> StockAgrees(s', k.value))
  {
    assert HoldsItsShare(db.sales, db.stock, o);
    ClaimKeepsStock(db.stock, o, until, db.sales.orders[o].product, claimed);
    var k' := InsertMappings(Reserve(db.stock, o, until, claimed), o, claimed).value;
    DeliverableIsReserved(k', o);
    if s'.orders[o].status == Delivering {
      HoldingMoves(db.sales, s', db.stock, k', o);
    }
  }

  lemma JobForPaidOrder(db: Db, s': Sales, o: nat, maxAttempts: nat, now: int)
    requires SalesOk(db.sales) && QueueOk(db.queue) && JobsAgree(db.sales, db.queue)
    requires OnlyMoved(db.sales, s', o)
    requires db.sales.orders[o].status == PendingPayment && s'.orders[o].status == Delivering
    ensures db.sales.orders[o].user < |db.sales.users|
    ensures var chat := db.sales.users[db.sales.orders[o].user].chat;
            && chat > 0
            && FindByOrder(db.queue, o).None?
            && InsertJob(db.queue, o, maxAttempts, now, chat).Some?
            && QueueOk(InsertJob(db.queue, o, maxAttempts, now, chat).value)
            && JobsAgree(s', InsertJob(db.queue, o, maxAttempts, now, chat).value)
  {
    assert OrderOk(db.sales, o);
    NoJob(db.sales, db.queue, o);
    var chat := db.sales.users[db.sales.orders[o].user].chat;
    InsertKeepsQueue(db.queue, o, maxAttempts, now, chat);
    JobCreated(db.sales, s', db.queue, o, maxAttempts, now);
  }

  /** The shape of a refused order payment: a review payment and its case. */
  lemma RefusedForOrderKeeps(db: Db, c: PaymentCommand, o: nat, terms: Terms)
    requires Inv(db)
    requires Locked(db.till, c.event)
    requires o < |db.sales.orders|
    requires OrderProblem(db.sales.orders[o], c, terms.now) != ""
    requires AcceptForOrder(db, c, o, terms).Ok?
    ensures Inv(AcceptForOrder(db, c, o, terms).value.0)
  {
    var payment := PaymentFor(c, Some(o), db.sales.orders[o].user, false);
    ReviewedPaymentKeeps(db, c, payment, Some(OrderTarget(o)), OrderProblem(db.sales.orders[o], c, terms.now));
  }

  /** The order of a payment without a problem waits for exactly that amount. */
  lemma NoProblem(order: Order, c: PaymentCommand, now: int)
    requires OrderProblem(order, c, now) == ""
    ensures order.status == PendingPayment && order.total == c.amount && c.currency == CURRENCY
    ensures order.expiresAt > now && order.environment == c.environment
    ensures c.destination.Some? ==> c.destination.value == order.bank
  {
  }

  /** A payment that finds too few items confirms, moves its order to
      out_of_stock and opens a case. */
  lemma ShortOrderKeeps(db: Db, c: PaymentCommand, o: nat, terms: Terms)
    requires Inv(db)
    requires Locked(db.till, c.event)
    requires o < |db.sales.orders|
    requires OrderProblem(db.sales.orders[o], c, terms.now) == ""
    requires |ExactSet(db.stock, db.sales.orders[o].product, db.sales.orders[o].quantity,
                       terms.offered)| != db.sales.orders[o].quantity
    requires AcceptForOrder(db, c, o, terms).Ok?
    ensures Inv(AcceptForOrder(db, c, o, terms).value.0)
  {
    var payment := PaymentFor(c, Some(o), db.sales.orders[o].user, true);
    NoProblem(db.sales.orders[o], c, terms.now);
    assert Holds(SalesSound, db);
    PaidPath(db.sales, o, OutOfStock, "payment_accepted", "inventory_claim_started",
             "post_payment_inventory_insufficient");
    ReviewedPaymentKeeps(db, c, payment, Some(OrderTarget(o)), "out_of_stock");
    var db' := AcceptForOrder(db, c, o, terms).value.0;
    UnpaidOrderMoves(db.(till := db'.till), db'.sales, o);
  }

  /** Fulfilling an order that is being paid succeeds up to its allocation, and
      then changes exactly the four groups it is about. */
  lemma FulfilShape(db: Db, o: nat, payment: nat, claimed: set<nat>, terms: Terms)
    requires o < |db.sales.orders| && db.sales.orders[o].status == Reserving
    requires db.sales.orders[o].user < |db.sales.users|
    requires db.sales.users[db.sales.orders[o].user].chat > 0
    requires db.sales.orders[o].quantity > 0
    requires FindByOrder(db.queue, o).None?
    requires InsertMappings(Reserve(db.stock, o, terms.until, claimed), o, claimed).Ok?
    requires |Deliverable(InsertMappings(Reserve(db.stock, o, terms.until, claimed), o, claimed).value, o)| ==
             db.sales.orders[o].quantity
    requires Fulfil(db, o, payment, claimed, terms).Ok?
    ensures terms.maxAttempts > 0
    ensures var till := InsertAllocation(db.till, Allocation(payment, OrderTarget(o), db.sales.orders[o].total));
            var queue := InsertJob(db.queue, o, terms.maxAttempts, terms.now,
                                   db.sales.users[db.sales.orders[o].user].chat);
            var sales := Move(db.sales, o, Reserving, Delivering, "delivery_job_created");
            && till.Ok? && queue.Some? && sales.Ok?
            && Fulfil(db, o, payment, claimed, terms).value ==
               db.(stock := InsertMappings(Reserve(db.stock, o, terms.until, claimed), o, claimed).value,
                   till := till.value, queue := queue.value, sales := sales.value)
  {
    var stock := InsertMappings(Reserve(db.stock, o, terms.until, claimed), o, claimed).value;
    var till := InsertAllocation(db.till, Allocation(payment, OrderTarget(o), db.sales.orders[o].total)).value;
    HandoffCreates(db.(stock := stock, till := till), o, terms.now, terms.maxAttempts);
  }

  /** An order in a paying transaction, right before it is fulfilled. */
  ghost predicate Paying(db: Db, s2: Sales, o: nat, claimed: set<nat>, r1: string, r2: string) {
    && o < |db.sales.orders| && db.sales.orders[o].status == PendingPayment
    && claimed <= Claimable(db.stock, db.sales.orders[o].product)
    && |claimed| == db.sales.orders[o].quantity
    && PassThroughPaid(db.sales, o, r1, r2) == Ok(s2)
  }

  lemma FulfilWrites(db: Db, s2: Sales, t: Till, w: Wallets, o: nat, claimed: set<nat>, terms: Terms) returns (db': Db)
    requires o < |s2.orders| && s2.orders[o].status == Reserving && s2.orders[o].quantity > 0
    requires s2.orders[o].user < |s2.users| && s2.users[s2.orders[o].user].chat > 0
    requires FindByOrder(db.queue, o).None?
    requires InsertMappings(Reserve(db.stock, o, terms.until, claimed), o, claimed).Ok?
    requires |Deliverable(InsertMappings(Reserve(db.stock, o, terms.until, claimed), o, claimed).value, o)| ==
             s2.orders[o].quantity
    requires Fulfil(db.(sales := s2, till := t, wallets := w), o, |db.till.payments|, claimed, terms).Ok?
    ensures Move(s2, o, Reserving, Delivering, "delivery_job_created") == Ok(db'.sales)
    ensures InsertMappings(Reserve(db.stock, o, terms.until, claimed), o, claimed) == Ok(db'.stock)
    ensures InsertAllocation(t, Allocation(|db.till.payments|, OrderTarget(o), s2.orders[o].total)) == Ok(db'.till)
    ensures InsertJob(db.queue, o, terms.maxAttempts, terms.now, s2.users[s2.orders[o].user].chat) == Some(db'.queue)
    ensures db'.wallets == w && db'.gate == db.gate
    ensures Fulfil(db.(sales := s2, till := t, wallets := w), o, |db.till.payments|, claimed, terms) == Ok(db')
  {
    FulfilShape(db.(sales := s2, till := t, wallets := w), o, |db.till.payments|, claimed, terms);
    db' := Fulfil(db.(sales := s2, till := t, wallets := w), o, |db.till.payments|, claimed, terms).value;
  }

  /** What a paying transaction knows of its order before the fulfilment. */
  lemma PayingFacts(db: Db, s2: Sales, o: nat, claimed: set<nat>, until: int, r1: string, r2: string)
    requires Inv(db)
    requires Paying(db, s2, o, claimed, r1, r2)
    ensures OnlyMoved(db.sales, s2, o) && s2.orders[o].status == Reserving
    ensures s2.orders[o].quantity > 0
    ensures s2.orders[o].user < |s2.users| && s2.users[s2.orders[o].user].chat > 0
    ensures FindByOrder(db.queue, o).None?
    ensures FindTarget(db.till, OrderTarget(o)).None?
    ensures InsertMappings(Reserve(db.stock, o, until, claimed), o, claimed).Ok?
    ensures |Deliverable(InsertMappings(Reserve(db.stock, o, until, claimed), o, claimed).value, o)| ==
            s2.orders[o].quantity
  {
    assert OnlyMoved(db.sales, s2, o) && s2.orders[o].status == Reserving && OrderOk(db.sales, o) by {
      assert Holds(SalesSound, db);
      PaidPath(db.sales, o, Delivering, r1, r2, "delivery_job_created");
    }
    assert FindByOrder(db.queue, o).None? by {
      assert Holds(JobsMatch, db);
      NoJob(db.sales, db.queue, o);
    }
    assert FindTarget(db.till, OrderTarget(o)).None? by {
      assert Holds(PaymentsMatch, db);
      assert PaidIffFulfilling(db.sales, db.till, o);
    }
    assert Holds(StockSound, db) && Holds(HoldingsMatch, db);
    ClaimedHoldings(db, s2, o, until, claimed);
  }

  /** The paid order has come to rest. */
  lemma PaidOrderRests(s: Sales, s2: Sales, o: nat, r1: string, r2: string)
    requires SalesOk(s)
    requires o < |s.orders| && s.orders[o].status == PendingPayment
    requires PassThroughPaid(s, o, r1, r2) == Ok(s2)
    ensures s.orders[o].user < |s.users|
    ensures Move(s2, o, Reserving, Delivering, "delivery_job_created").Ok?
    ensures var s' := Move(s2, o, Reserving, Delivering, "delivery_job_created").value;
            OnlyMoved(s, s', o) && SalesOk(s') && s'.orders[o].status == Delivering
  {
    PaidPath(s, o, Delivering, r1, r2, "delivery_job_created");
    assert OrderOk(s, o);
  }

  /** The parts of a fulfilled order keep the invariant together. */
  lemma PartsKeep(db: Db, s': Sales, k': Stock, q': Queue, t': Till, w: Wallets, o: nat)
    requires Inv(db)
    requires OnlyMoved(db.sales, s', o) && SalesOk(s')
    requires Fulfilling(s'.orders[o].status)
    requires StockOk(k') && StockAgrees(s', k')
    requires QueueOk(q') && JobsAgree(s', q')
    requires TillOk(t')
    requires t'.allocations ==
             db.till.allocations + [Allocation(|db.till.payments|, OrderTarget(o), db.sales.orders[o].total)]
    requires WalletsOk(w) && w.topups == db.wallets.topups
    requires SumOfKind(w.ledger, Topups) == SumOfKind(db.wallets.ledger, Topups)
    requires DebitsAgree(s', t', w)
    ensures Inv(db.(sales := s', stock := k', queue := q', till := t', wallets := w))
  {
    assert TillAgrees(s', t') by {
      assert Holds(PaymentsMatch, db);
      TillPays(db.sales, s', db.till, t', o, |db.till.payments|);
    }
    assert TopupsAgree(t', w) by {
      assert Holds(TopupsMatch, db);
      TopupsKeptByOrder(db.till, t', db.wallets, w);
    }
    forall part
      ensures Holds(part, db.(sales := s', stock := k', queue := q', till := t', wallets := w))
    {
      assert Holds(part, db);
    }
  }

  /** The order, the items and the job of a fulfilled order agree. */
  lemma FulfilledAgrees(db: Db, s2: Sales, o: nat, claimed: set<nat>, terms: Terms, r1: string, r2: string)
    requires Inv(db)
    requires Paying(db, s2, o, claimed, r1, r2)
    ensures db.sales.orders[o].user < |db.sales.users|
    ensures Move(s2, o, Reserving, Delivering, "delivery_job_created").Ok?
    ensures var s' := Move(s2, o, Reserving, Delivering, "delivery_job_created").value;
            var k := InsertMappings(Reserve(db.stock, o, terms.until, claimed), o, claimed);
            var q := InsertJob(db.queue, o, terms.maxAttempts, terms.now, db.sales.users[db.sales.orders[o].user].chat);
            && OnlyMoved(db.sales, s', o) && SalesOk(s') && s'.orders[o].status == Delivering
            && k.Ok? && StockOk(k.value) && StockAgrees(s', k.value)
            && q.Some? && QueueOk(q.value) && JobsAgree(s', q.value)
  {
    assert Holds(SalesSound, db);
    PaidOrderRests(db.sales, s2, o, r1, r2);
    var s' := Move(s2, o, Reserving, Delivering, "delivery_job_created").value;
    StockPart(db, s', o, claimed, terms.until);
    QueuePart(db, s', o, terms);
  }

  lemma StockPart(db: Db, s': Sales, o: nat, claimed: set<nat>, until: int)
    requires Inv(db)
    requires OnlyMoved(db.sales, s', o)
    requires db.sales.orders[o].status == PendingPayment && s'.orders[o].status == Delivering
    requires claimed <= Claimable(db.stock, db.sales.orders[o].product) && |claimed| == db.sales.orders[o].quantity
    ensures var k := InsertMappings(Reserve(db.stock, o, until, claimed), o, claimed);
            k.Ok? && StockOk(k.value) && StockAgrees(s', k.value)
  {
    assert Holds(StockSound, db) && Holds(HoldingsMatch, db);
    ClaimedHoldings(db, s', o, until, claimed);
  }

  lemma QueuePart(db: Db, s': Sales, o: nat, terms: Terms)
    requires Inv(db)
    requires OnlyMoved(db.sales, s', o)
    requires db.sales.orders[o].status == PendingPayment && s'.orders[o].status == Delivering
    ensures db.sales.orders[o].user < |db.sales.users|
    ensures var q := InsertJob(db.queue, o, terms.maxAttempts, terms.now, db.sales.users[db.sales.orders[o].user].chat);
            q.Some? && QueueOk(q.value) && JobsAgree(s', q.value)
  {
    assert Holds(SalesSound, db) && Holds(QueueSound, db) && Holds(JobsMatch, db);
    JobForPaidOrder(db, s', o, terms.maxAttempts, terms.now);
  }

  /** What Fulfil writes for a paying order: four sound groups that agree. */
  lemma FulfilParts(db: Db, s2: Sales, t: Till, w: Wallets, o: nat, claimed: set<nat>, terms: Terms, r1: string,
                    r2: string)
    returns (s': Sales, k': Stock, q': Queue, t1: Till)
    requires Inv(db)
    requires Paying(db, s2, o, claimed, r1, r2)
    requires Fulfil(db.(sales := s2, till := t, wallets := w), o, |db.till.payments|, claimed, terms).Ok?
    ensures OnlyMoved(db.sales, s', o) && SalesOk(s') && s'.orders[o].status == Delivering
    ensures StockOk(k') && StockAgrees(s', k')
    ensures QueueOk(q') && JobsAgree(s', q')
    ensures FindTarget(db.till, OrderTarget(o)).None?
    ensures InsertAllocation(t, Allocation(|db.till.payments|, OrderTarget(o), db.sales.orders[o].total)) == Ok(t1)
    ensures Fulfil(db.(sales := s2, till := t, wallets := w), o, |db.till.payments|, claimed, terms).value ==
            db.(sales := s', stock := k', queue := q', till := t1, wallets := w)
  {
    PayingFacts(db, s2, o, claimed, terms.until, r1, r2);
    FulfilledAgrees(db, s2, o, claimed, terms, r1, r2);
    var db' := FulfilWrites(db, s2, t, w, o, claimed, terms);
    s', k', q', t1 := db'.sales, db'.stock, db'.queue, db'.till;
  }

  /** The wallets of a paid order: untouched, or with one debit of its exact total
      from its buyer, when the payment is its wallet payment. */
  ghost predicate Debited(db: Db, w: Wallets, payment: Payment, o: nat)
    requires o < |db.sales.orders|
  {
    || w == db.wallets
    || (&& payment.provider == WALLET && payment.transaction == WalletTransaction(o)
        && |w.accounts| == |db.wallets.accounts|
        && (forall a :: 0 <= a < |w.accounts| ==> w.accounts[a].user == db.wallets.accounts[a].user)
        && |w.ledger| == |db.wallets.ledger| + 1 && db.wallets.ledger <= w.ledger
        && var entry := w.ledger[|db.wallets.ledger|];
        && entry.source == ForOrder(o) && entry.amount == -db.sales.orders[o].total
        && entry.account < |w.accounts| && w.accounts[entry.account].user == db.sales.orders[o].user)
  }

  lemma DebitAgrees(db: Db, s': Sales, t': Till, w: Wallets, payment: Payment, o: nat)
    requires DebitsAgree(db.sales, db.till, db.wallets)
    requires OnlyMoved(db.sales, s', o) && Fulfilling(s'.orders[o].status)
    requires Debited(db, w, payment, o)
    requires t'.payments == db.till.payments + [payment]
    requires t'.allocations == db.till.allocations + [Allocation(|db.till.payments|, OrderTarget(o), payment.amount)]
    ensures !Fulfilling(db.sales.orders[o].status) ==> DebitsAgree(s', t', w)
  {
    assert t'.allocations[|db.till.allocations|].target == OrderTarget(o);
    assert t'.payments[|db.till.payments|] == payment;
    if payment.provider == WALLET && payment.transaction == WalletTransaction(o) {
      assert PaidFromWallet(t', o);
    }
    DebitsKept(db.sales, s', db.till, t', db.wallets, w);
  }

  /** Fulfilling a paying order from a sound state leads to a sound state. */
  lemma FulfilKeeps(db: Db, s2: Sales, payment: Payment, w: Wallets, o: nat, claimed: set<nat>, terms: Terms,
                    event: Option<nat>, r1: string, r2: string)
    requires Inv(db)
    requires Paying(db, s2, o, claimed, r1, r2)
    requires Locked(db.till, event)
    requires InsertPayment(db.till, payment).Ok? && payment.confirmed && payment.amount == db.sales.orders[o].total
    requires WalletsOk(w) && w.topups == db.wallets.topups
    requires SumOfKind(w.ledger, Topups) == SumOfKind(db.wallets.ledger, Topups)
    requires Debited(db, w, payment, o)
    requires Fulfil(db.(sales := s2, till := InsertPayment(db.till, payment).value, wallets := w), o,
                    |db.till.payments|, claimed, terms).Ok?
    ensures var handed :=
            Fulfil(db.(sales := s2, till := InsertPayment(db.till, payment).value, wallets := w), o,
                   |db.till.payments|, claimed, terms).value;
            var finished := FinishEvent(handed.till, event, EventCompleted);
            finished.Ok? && Inv(handed.(till := finished.value))
  {
    var t := InsertPayment(db.till, payment).value;
    var s', k', q', t1 := FulfilParts(db, s2, t, w, o, claimed, terms, r1, r2);
    var t' := PaidTill(db, t1, o, payment, event);
    assert DebitsAgree(s', t', w) by {
      assert Holds(DebitsMatch, db);
      DebitAgrees(db, s', t', w, payment, o);
    }
    PartsKeep(db, s', k', q', t', w, o);
  }

  /** The till of a fulfilled order: the payment, its allocation, its event. */
  lemma PaidTill(db: Db, t1: Till, o: nat, payment: Payment, event: Option<nat>) returns (t': Till)
    requires Inv(db)
    requires Locked(db.till, event)
    requires InsertPayment(db.till, payment).Ok? && payment.confirmed
    requires FindTarget(db.till, OrderTarget(o)).None?
    requires InsertAllocation(InsertPayment(db.till, payment).value,
                              Allocation(|db.till.payments|, OrderTarget(o), payment.amount)) == Ok(t1)
    ensures FinishEvent(t1, event, EventCompleted) == Ok(t')
    ensures TillOk(t')
    ensures t'.payments == db.till.payments + [payment]
    ensures t'.allocations == db.till.allocations + [Allocation(|db.till.payments|, OrderTarget(o), payment.amount)]
  {
    assert Holds(TillSound, db);
    AllocatedPaymentKeepsTill(db.till, payment, OrderTarget(o), event);
    t' := FinishEvent(t1, event, EventCompleted).value;
  }

  /** The two ends of an accepted transfer: the payment before the fulfilment and
      the event after it. */
  lemma PaidForOrderShape(db: Db, c: PaymentCommand, o: nat, terms: Terms)
    requires o < |db.sales.orders|
    requires OrderProblem(db.sales.orders[o], c, terms.now) == ""
    requires |ExactSet(db.stock, db.sales.orders[o].product, db.sales.orders[o].quantity, terms.offered)| ==
             db.sales.orders[o].quantity
    requires db.sales.orders[o].quantity > 0
    requires AcceptForOrder(db, c, o, terms).Ok?
    ensures var (db', acceptance) := AcceptForOrder(db, c, o, terms).value;
            var till := InsertPayment(db.till, PaymentFor(c, Some(o), db.sales.orders[o].user, true));
            var s2 := PassThroughPaid(db.sales, o, "payment_accepted", "inventory_claim_started");
            && till.Ok? && s2.Ok?
            && var claimed := ExactSet(db.stock, db.sales.orders[o].product, db.sales.orders[o].quantity,
                                       terms.offered);
            && Paying(db, s2.value, o, claimed, "payment_accepted", "inventory_claim_started")
            && acceptance == Acceptance(Accepted, Some(|db.till.payments|), |claimed|)
            && var handed := Fulfil(db.(sales := s2.value, till := till.value), o, |db.till.payments|, claimed, terms);
            && handed.Ok?
            && FinishEvent(handed.value.till, c.event, EventCompleted) == Ok(db'.till)
            && db' == handed.value.(till := db'.till)
  {
    NoProblem(db.sales.orders[o], c, terms.now);
  }

  lemma PaidForOrderKeeps(db: Db, c: PaymentCommand, o: nat, terms: Terms)
    requires Inv(db)
    requires Locked(db.till, c.event)
    requires o < |db.sales.orders|
    requires OrderProblem(db.sales.orders[o], c, terms.now) == ""
    requires |ExactSet(db.stock, db.sales.orders[o].product, db.sales.orders[o].quantity, terms.offered)| ==
             db.sales.orders[o].quantity
    requires AcceptForOrder(db, c, o, terms).Ok?
    ensures Inv(AcceptForOrder(db, c, o, terms).value.0)
  {
    var order := db.sales.orders[o];
    assert order.quantity > 0 by {
      assert Holds(SalesSound, db);
      assert OrderOk(db.sales, o);
    }
    NoProblem(order, c, terms.now);
    PaidForOrderShape(db, c, o, terms);
    var claimed := ExactSet(db.stock, order.product, order.quantity, terms.offered);
    var payment := PaymentFor(c, Some(o), order.user, true);
    var s2 := PassThroughPaid(db.sales, o, "payment_accepted", "inventory_claim_started").value;
    assert Holds(WalletsSound, db);
    FulfilKeeps(db, s2, payment, db.wallets, o, claimed, terms, c.event, "payment_accepted", "inventory_claim_started");
  }

  // ---------- a top-up that is paid ----------

  lemma RefusedForTopupKeeps(db: Db, c: PaymentCommand, u: nat, now: int)
    requires Inv(db)
    requires Locked(db.till, c.event)
    requires u < |db.wallets.topups|
    requires TopupProblem(db.wallets.topups[u], c, now) != ""
    requires AcceptForTopup(db, c, u, now).Ok?
    ensures Inv(AcceptForTopup(db, c, u, now).value.0)
  {
    var topup := db.wallets.topups[u];
    var reason := TopupProblem(topup, c, now);
    ReviewedPaymentKeeps(db, c, PaymentFor(c, None, topup.user, false), Some(TopupTarget(u)), reason);
    var db' := AcceptForTopup(db, c, u, now).value.0;
    if topup.status in {TopupPending, TopupExpired} {
      TopupReviewKeeps(db.(till := db'.till), u);
    } else {
      assert db'.wallets == db.wallets;
    }
  }

  lemma TopupReviewKeeps(db: Db, u: nat)
    requires Inv(db)
    requires MarkInReview(db.wallets, u).Ok?
    ensures Inv(db.(wallets := MarkInReview(db.wallets, u).value))
  {
    assert Holds(WalletsSound, db) && Holds(TopupsMatch, db) && Holds(DebitsMatch, db);
    var w' := MarkInReview(db.wallets, u).value;
    ReviewKeepsWallets(db.wallets, u);
    TopupsKept(db.till, db.till, db.wallets, w');
    DebitsKept(db.sales, db.sales, db.till, db.till, db.wallets, w');
    forall part
      ensures Holds(part, db.(wallets := w'))
    {
      assert Holds(part, db);
    }
  }

  lemma CreditedTopupShape(db: Db, c: PaymentCommand, u: nat, now: int)
    requires u < |db.wallets.topups|
    requires TopupProblem(db.wallets.topups[u], c, now) == ""
    requires AcceptForTopup(db, c, u, now).Ok?
    ensures var (db', acceptance) := AcceptForTopup(db, c, u, now).value;
            var topup := db.wallets.topups[u];
            var p := |db.till.payments|;
            var payment := PaymentFor(c, None, topup.user, true);
            && topup.status == TopupPending && topup.amount == c.amount
            && acceptance == Acceptance(Accepted, Some(p), 0)
            && InsertPayment(db.till, payment).Ok?
            && Post(db.wallets, topup.account, FromTopup(u), topup.amount, "payment:" + Decimal(p)).Ok?
            && MarkCredited(Post(db.wallets, topup.account, FromTopup(u), topup.amount,
                                 "payment:" + Decimal(p)).value, u, topup.version) == Ok(db'.wallets)
            && InsertAllocation(InsertPayment(db.till, payment).value, Allocation(p, TopupTarget(u), topup.amount)).Ok?
            && FinishEvent(InsertAllocation(InsertPayment(db.till, payment).value,
                                            Allocation(p, TopupTarget(u), topup.amount)).value, c.event,
                                                EventCompleted) == Ok(db'.till)
            && db' == db.(till := db'.till, wallets := db'.wallets)
  {
  }

  lemma TillKeptByTopup(s: Sales, t: Till, t': Till)
    requires TillAgrees(s, t)
    requires |t'.allocations| == |t.allocations| + 1 && t.allocations <= t'.allocations
    requires t'.allocations[|t.allocations|].target.TopupTarget?
    ensures TillAgrees(s, t')
  {
    forall o | 0 <= o < |s.orders|
      ensures PaidIffFulfilling(s, t', o)
    {
      assert PaidIffFulfilling(s, t, o);
      PaidGrows(t, t', OrderTarget(o));
    }
    forall a | 0 <= a < |t'.allocations|
      ensures AllocationFits(s, t', a)
    {
      if a < |t.allocations| {
        assert AllocationFits(s, t, a);
      }
    }
  }

  lemma CreditedTopupKeeps(db: Db, c: PaymentCommand, u: nat, now: int)
    requires Inv(db)
    requires Locked(db.till, c.event)
    requires u < |db.wallets.topups|
    requires TopupProblem(db.wallets.topups[u], c, now) == ""
    requires AcceptForTopup(db, c, u, now).Ok?
    ensures Inv(AcceptForTopup(db, c, u, now).value.0)
  {
    CreditedTopupShape(db, c, u, now);
    var db' := AcceptForTopup(db, c, u, now).value.0;
    var topup := db.wallets.topups[u];
    assert FindTarget(db.till, TopupTarget(u)).None? by {
      assert Holds(TopupsMatch, db);
      assert PaidIffCredited(db.till, db.wallets, u);
    }
    assert Holds(TillSound, db);
    AllocatedPaymentKeepsTill(db.till, PaymentFor(c, None, topup.user, true), TopupTarget(u), c.event);
    assert Holds(WalletsSound, db);
    CreditedWallets(db.wallets, u, "payment:" + Decimal(|db.till.payments|));
    CreditKeeps(db, db'.till, db'.wallets, u);
  }

  /** The wallets after a top-up was credited: one entry and one status more. */
  ghost predicate CreditedWith(w: Wallets, w': Wallets, u: nat) {
    && u < |w.topups| && |w'.topups| == |w.topups|
    && (forall v :: 0 <= v < |w.topups| && v != u ==> w'.topups[v] == w.topups[v])
    && w'.topups[u].amount == w.topups[u].amount && w'.topups[u].status == TopupCredited
    && |w'.accounts| == |w.accounts|
    && (forall a :: 0 <= a < |w.accounts| ==> w'.accounts[a].user == w.accounts[a].user)
    && |w'.ledger| == |w.ledger| + 1 && w.ledger <= w'.ledger
    && w'.ledger[|w.ledger|].source == FromTopup(u)
    && SumOfKind(w'.ledger, Topups) == SumOfKind(w.ledger, Topups) + w.topups[u].amount
  }

  lemma CreditedWallets(w: Wallets, u: nat, key: string)
    requires WalletsOk(w)
    requires u < |w.topups| && w.topups[u].status == TopupPending
    requires Post(w, w.topups[u].account, FromTopup(u), w.topups[u].amount, key).Ok?
    ensures var posted := Post(w, w.topups[u].account, FromTopup(u), w.topups[u].amount, key).value;
            var w' := MarkCredited(posted, u, w.topups[u].version);
            w'.Ok? && WalletsOk(w'.value) && CreditedWith(w, w'.value, u)
  {
    var topup := w.topups[u];
    var posted := Post(w, topup.account, FromTopup(u), topup.amount, key).value;
    CreditKeepsWallets(w, u, key);
    PostKeepsAccounts(w, topup.account, FromTopup(u), topup.amount, key);
    SumGrows(w.ledger, posted.ledger[|w.ledger|], topup.account, Topups);
  }

  /** A pending top-up is credited and allocated in one step. */
  lemma CreditKeeps(db: Db, t': Till, w': Wallets, u: nat)
    requires Inv(db)
    requires WalletsOk(w') && CreditedWith(db.wallets, w', u)
    requires TillOk(t')
    requires db.till.payments <= t'.payments
    requires t'.allocations ==
             db.till.allocations + [Allocation(|db.till.payments|, TopupTarget(u), db.wallets.topups[u].amount)]
    ensures Inv(db.(till := t', wallets := w'))
  {
    assert TopupsAgree(t', w') by {
      assert Holds(TopupsMatch, db);
      TopupPays(db.till, t', db.wallets, w', u, |db.till.payments|);
    }
    assert TillAgrees(db.sales, t') by {
      assert Holds(PaymentsMatch, db);
      TillKeptByTopup(db.sales, db.till, t');
    }
    assert DebitsAgree(db.sales, t', w') by {
      assert Holds(DebitsMatch, db);
      DebitsKept(db.sales, db.sales, db.till, t', db.wallets, w');
    }
    forall part
      ensures Holds(part, db.(till := t', wallets := w'))
    {
      assert Holds(part, db);
    }
  }

  // ---------- acceptance ----------

  lemma DecideKeeps(db: Db, c: PaymentCommand, terms: Terms)
    requires Inv(db)
    requires Locked(db.till, c.event)
    requires Decide(db, c, terms).Ok?
    ensures Inv(Decide(db, c, terms).value.0)
  {
    match FindPayment(db.till, c.provider, c.environment, c.transaction)
    case Some(p) => KnownPaymentKeeps(db, c, p);
    case None =>
      var order := FindByReference(db.sales, c.reference);
      var topup := FindTopupByReference(db.wallets, c.reference);
      if order.Some? == topup.Some? {
        ReviewKeeps(db, c, None, None, "provider_ambiguous_reference");
        ReviewKeeps(db, c, None, None, "unknown_reference");
      } else if order.Some? {
        var row := db.sales.orders[order.value];
        if OrderProblem(row, c, terms.now) != "" {
          RefusedForOrderKeeps(db, c, order.value, terms);
        } else if |ExactSet(db.stock, row.product, row.quantity, terms.offered)| != row.quantity {
          ShortOrderKeeps(db, c, order.value, terms);
        } else {
          PaidForOrderKeeps(db, c, order.value, terms);
        }
      } else if TopupProblem(db.wallets.topups[topup.value], c, terms.now) != "" {
        RefusedForTopupKeeps(db, c, topup.value, terms.now);
      } else {
        CreditedTopupKeeps(db, c, topup.value, terms.now);
      }
  }

  lemma AcceptKeeps(db: Db, c: PaymentCommand, terms: Terms)
    requires Inv(db)
    requires AcceptPayment(db, c, terms).Ok?
    ensures Inv(AcceptPayment(db, c, terms).value.0)
  {
    if Locked(db.till, c.event) {
      DecideKeeps(db, c, terms);
    }
  }

  lemma ManualAcceptKeeps(db: Db, ticket: Ticket, update: nat, c: PaymentCommand, terms: Terms)
    requires Inv(db)
    requires ManualAccept(db, ticket, update, c, terms).Ok?
    ensures Inv(ManualAccept(db, ticket, update, c, terms).value.0)
  {
    var manual := ByHand(c);
    AcceptKeeps(db, manual, terms);
    GateIsFree(AcceptPayment(db, manual, terms).value.0, ManualAccept(db, ticket, update, c, terms).value.0.gate);
  }

  // ---------- wallet ----------

  lemma EnsureKeeps(db: Db, user: nat)
    requires Inv(db)
    ensures Inv(db.(wallets := EnsureAccount(db.wallets, user).0))
    ensures EnsureAccount(db.wallets, user).1 < |EnsureAccount(db.wallets, user).0.accounts|
    ensures var (w, account) := EnsureAccount(db.wallets, user); w.accounts[account].user == user
  {
    assert Holds(WalletsSound, db) && Holds(TopupsMatch, db) && Holds(DebitsMatch, db);
    EnsureKeepsWallets(db.wallets, user);
    var w' := EnsureAccount(db.wallets, user).0;
    TopupsKept(db.till, db.till, db.wallets, w');
    DebitsKept(db.sales, db.sales, db.till, db.till, db.wallets, w');
    forall part
      ensures Holds(part, db.(wallets := w'))
    {
      assert Holds(part, db);
    }
  }

  /** An entry that is neither a top-up nor an order debit. */
  lemma AdjustmentKeeps(db: Db, account: nat, admin: nat, amount: int, key: string)
    requires Inv(db)
    requires Post(db.wallets, account, ByAdmin(admin), amount, key).Ok?
    ensures Inv(db.(wallets := Post(db.wallets, account, ByAdmin(admin), amount, key).value))
  {
    assert Holds(WalletsSound, db) && Holds(TopupsMatch, db) && Holds(DebitsMatch, db);
    var w' := Post(db.wallets, account, ByAdmin(admin), amount, key).value;
    PostKeepsWallets(db.wallets, account, ByAdmin(admin), amount, key);
    PostKeepsAccounts(db.wallets, account, ByAdmin(admin), amount, key);
    SumGrows(db.wallets.ledger, w'.ledger[|db.wallets.ledger|], account, Topups);
    TopupsKept(db.till, db.till, db.wallets, w');
    DebitsKept(db.sales, db.sales, db.till, db.till, db.wallets, w');
    forall part
      ensures Holds(part, db.(wallets := w'))
    {
      assert Holds(part, db);
    }
  }

  lemma AdjustKeeps(db: Db, ticket: Ticket, update: nat, user: nat, amount: int, key: string, now: int)
    requires Inv(db)
    requires AdjustWallet(db, ticket, update, user, amount, key, now).Ok?
    ensures Inv(AdjustWallet(db, ticket, update, user, amount, key, now).value)
  {
    EnsureKeeps(db, user);
    var (ensured, account) := EnsureAccount(db.wallets, user);
    AdjustmentKeeps(db.(wallets := ensured), account, ticket.admin, amount, key);
    var db' := AdjustWallet(db, ticket, update, user, amount, key, now).value;
    GateIsFree(db.(wallets := db'.wallets), db'.gate);
  }

  lemma CreateTopupKeeps(db: Db, request: TopupRequest, update: nat)
    requires Inv(db)
    requires CreateTopup(db, request, update).Ok?
    ensures Inv(CreateTopup(db, request, update).value.0)
  {
    var db' := CreateTopup(db, request, update).value.0;
    if FindTopupByKey(db.wallets, request.user, request.key).None? {
      EnsureKeeps(db, request.user);
      var (ensured, account) := EnsureAccount(db.wallets, request.user);
      var topup := Topup(request.user, account, request.amount, request.reference, request.key, TopupPending,
                         request.expiresAt, request.environment, request.bank, 1);
      TopupAdded(db.(wallets := ensured), topup);
      GateIsFree(db.(wallets := db'.wallets), db'.gate);
    } else {
      GateIsFree(db, db'.gate);
    }
  }

  lemma TopupAdded(db: Db, topup: Topup)
    requires Inv(db)
    requires topup.account < |db.wallets.accounts|
    requires InsertTopup(db.wallets, topup).Ok? && InsertTopup(db.wallets, topup).value.Some?
    ensures Inv(db.(wallets := InsertTopup(db.wallets, topup).value.value))
  {
    assert Holds(WalletsSound, db) && Holds(TopupsMatch, db) && Holds(DebitsMatch, db);
    InsertTopupKeepsWallets(db.wallets, topup);
    var w' := InsertTopup(db.wallets, topup).value.value;
    TopupsKept(db.till, db.till, db.wallets, w');
    DebitsKept(db.sales, db.sales, db.till, db.till, db.wallets, w');
    forall part
      ensures Holds(part, db.(wallets := w'))
    {
      assert Holds(part, db);
    }
  }

  lemma RepeatKeeps(db: Db, user: nat, o: nat, p: nat, update: nat)
    requires Inv(db)
    requires RepeatPayment(db, user, o, p, update).Ok?
    ensures Inv(RepeatPayment(db, user, o, p, update).value.0)
  {
    EnsureKeeps(db, user);
    var db' := RepeatPayment(db, user, o, p, update).value.0;
    GateIsFree(db.(wallets := db'.wallets), db'.gate);
  }

  // ---------- paying an order from the wallet ----------

  /** The debit of an order that is being paid. */
  lemma DebitPosted(db: Db, account: nat, o: nat, amount: int, key: string, payment: Payment)
    requires Inv(db)
    requires o < |db.sales.orders| && db.sales.orders[o].status == PendingPayment
    requires amount == -db.sales.orders[o].total
    requires account < |db.wallets.accounts| && db.wallets.accounts[account].user == db.sales.orders[o].user
    requires payment.provider == WALLET && payment.transaction == WalletTransaction(o)
    requires Post(db.wallets, account, ForOrder(o), amount, key).Ok?
    ensures var w := Post(db.wallets, account, ForOrder(o), amount, key).value;
            && WalletsOk(w)
            && w.topups == db.wallets.topups
            && SumOfKind(w.ledger, Topups) == SumOfKind(db.wallets.ledger, Topups)
            && Debited(db, w, payment, o)
  {
    assert Holds(WalletsSound, db);
    forall e | 0 <= e < |db.wallets.ledger|
      ensures db.wallets.ledger[e].source != ForOrder(o)
    {
      assert Holds(DebitsMatch, db);
      assert DebitFits(db.sales, db.till, db.wallets, e);
    }
    var w := Post(db.wallets, account, ForOrder(o), amount, key).value;
    PostKeepsWallets(db.wallets, account, ForOrder(o), amount, key);
    PostKeepsAccounts(db.wallets, account, ForOrder(o), amount, key);
    SumGrows(db.wallets.ledger, w.ledger[|db.wallets.ledger|], account, Topups);
  }

  /** The parts of a payment from a wallet. */
  lemma PayFromShape(db: Db, account: nat, user: nat, o: nat, key: string, update: nat, terms: Terms)
    returns (s2: Sales, w: Wallets, claimed: set<nat>, handed: Db)
    requires o < |db.sales.orders| && account < |db.wallets.accounts|
    requires db.sales.orders[o].status == PendingPayment && db.sales.orders[o].quantity > 0
    requires PayFrom(db, account, user, o, key, update, terms).Ok?
    ensures var (db', result) := PayFrom(db, account, user, o, key, update, terms).value;
            var payment := WalletPaymentRow(db.sales.orders[o], user, o);
            && InsertPayment(db.till, payment).Ok?
            && Post(db.wallets, account, ForOrder(o), -db.sales.orders[o].total, key) == Ok(w)
            && Paying(db, s2, o, claimed, "wallet_payment_accepted", "wallet_inventory_claimed")
            && Fulfil(db.(sales := s2, till := InsertPayment(db.till, payment).value, wallets := w), o,
                      |db.till.payments|, claimed, terms) == Ok(handed)
            && db' == handed.(gate := db'.gate)
  {
    var order := db.sales.orders[o];
    claimed := ExactSet(db.stock, order.product, order.quantity, terms.offered);
    s2, w, handed := PaidFromAccount(db, account, user, o, key, update, terms);
  }

  lemma PayFromKeeps(db: Db, account: nat, user: nat, o: nat, key: string, update: nat, terms: Terms)
    requires Inv(db)
    requires o < |db.sales.orders| && db.sales.orders[o].user == user
    requires account < |db.wallets.accounts| && db.wallets.accounts[account].user == user
    requires db.sales.orders[o].status == PendingPayment
    requires PayFrom(db, account, user, o, key, update, terms).Ok?
    ensures Inv(PayFrom(db, account, user, o, key, update, terms).value.0)
  {
    var order := db.sales.orders[o];
    assert order.quantity > 0 by {
      assert Holds(SalesSound, db);
      assert OrderOk(db.sales, o);
    }
    var s2, w, claimed, handed := PayFromShape(db, account, user, o, key, update, terms);
    var payment := WalletPaymentRow(order, user, o);
    DebitPosted(db, account, o, -order.total, key, payment);
    FulfilKeeps(db, s2, payment, w, o, claimed, terms, None, "wallet_payment_accepted", "wallet_inventory_claimed");
    GateIsFree(handed, PayFrom(db, account, user, o, key, update, terms).value.0.gate);
  }

  lemma PayNowKeeps(db: Db, user: nat, o: nat, key: string, update: nat, terms: Terms)
    requires Inv(db)
    requires o < |db.sales.orders| && db.sales.orders[o].user == user
    requires db.sales.orders[o].status == PendingPayment
    requires PayNow(db, user, o, key, update, terms).Ok?
    ensures Inv(PayNow(db, user, o, key, update, terms).value.0)
  {
    EnsureKeeps(db, user);
    var (ensured, account) := EnsureAccount(db.wallets, user);
    PayFromKeeps(db.(wallets := ensured), account, user, o, key, update, terms);
  }

  lemma PayOrderKeeps(db: Db, user: nat, o: nat, key: string, update: nat, terms: Terms)
    requires Inv(db)
    requires PayOrder(db, user, o, key, update, terms).Ok?
    ensures Inv(PayOrder(db, user, o, key, update, terms).value.0)
  {
    match FindPayment(db.till, WALLET, db.sales.orders[o].environment, WalletTransaction(o))
    case Some(p) => RepeatKeeps(db, user, o, p, update);
    case None => PayNowKeeps(db, user, o, key, update, terms);
  }

  // ---------- events ----------

  lemma ClaimEventsKeeps(db: Db, picked: seq<nat>, now: int, staleBefore: int)
    requires Inv(db)
    ensures Inv(db.(till := ClaimEvents(db.till, picked, now, staleBefore)))
  {
    assert Holds(TillSound, db);
    var t' := ClaimEvents(db.till, picked, now, staleBefore);
    EventKeepsTill(db.till, t');
    TillGrows(db, t');
  }

  lemma RetryEventKeeps(db: Db, e: nat, nextAttemptAt: int)
    requires Inv(db)
    requires RetryEvent(db.till, e, nextAttemptAt).Ok?
    ensures Inv(db.(till := RetryEvent(db.till, e, nextAttemptAt).value))
  {
    assert Holds(TillSound, db);
    var t' := RetryEvent(db.till, e, nextAttemptAt).value;
    EventKeepsTill(db.till, t');
    TillGrows(db, t');
  }

  lemma FinishEventKeeps(db: Db, e: nat, status: EventStatus)
    requires Inv(db)
    requires FinishEvent(db.till, Some(e), status).Ok?
    ensures Inv(db.(till := FinishEvent(db.till, Some(e), status).value))
  {
    assert Holds(TillSound, db);
    var t' := FinishEvent(db.till, Some(e), status).value;
    EventKeepsTill(db.till, t');
    TillGrows(db, t');
  }

  lemma ReceiveEventKeeps(db: Db, maxAttempts: nat, now: int)
    requires Inv(db)
    ensures Inv(db.(till := InsertEvent(db.till, maxAttempts, now)))
  {
    assert Holds(TillSound, db);
    var t' := InsertEvent(db.till, maxAttempts, now);
    EventKeepsTill(db.till, t');
    TillGrows(db, t');
  }

  /** A case for an event that may already have one. */
  lemma CaseKeepsTill(t: Till, e: nat, reason: string, events: seq<PaymentEvent>)
    requires TillOk(t)
    requires e < |t.events| && |events| == |t.events|
    requires events[e].status !in {EventReceived, EventProcessing}
    requires forall i :: 0 <= i < |t.events| && i != e ==> events[i] == t.events[i]
    ensures TillOk(InsertReview(t, Review(Some(e), None, None, reason, Open)).(events := events))
  {
    var t' := InsertReview(t, Review(Some(e), None, None, reason, Open)).(events := events);
    ReviewsGrow(t, t');
  }

  lemma EventCaseKeeps(db: Db, e: nat, reason: string)
    requires Inv(db)
    ensures ReviewEvent(db.till, e, reason).Ok? ==> Inv(db.(till := ReviewEvent(db.till, e, reason).value))
    ensures ConflictEvent(db.till, e, reason).Ok? ==> Inv(db.(till := ConflictEvent(db.till, e, reason).value))
  {
    assert Holds(TillSound, db);
    if e < |db.till.events| {
      var open := db.till.events[e].status in {EventReceived, EventProcessing};
      var events := if open then WithStatus(db.till, e, EventInReview).events else db.till.events;
      CaseKeepsTill(db.till, e, reason, events);
      var t' := InsertReview(db.till, Review(Some(e), None, None, reason, Open)).(events := events);
      TillGrows(db, t');
      assert ConflictEvent(db.till, e, reason) == Ok(t');
      assert open ==> ReviewEvent(db.till, e, reason) == Ok(t');
    }
  }

  lemma ResolveKeeps(db: Db, ticket: Ticket, update: nat, review: nat, status: ReviewStatus, now: int)
    requires Inv(db)
    requires ResolveReviewCase(db, ticket, update, review, status, now).Ok?
    ensures Inv(ResolveReviewCase(db, ticket, update, review, status, now).value)
  {
    assert Holds(TillSound, db);
    ResolveKeepsTill(db.till, review, status);
    TillGrows(db, ResolveReview(db.till, review, status).value);
    var db' := ResolveReviewCase(db, ticket, update, review, status, now).value;
    GateIsFree(db.(till := db'.till), db'.gate);
  }
}
