/** What paying for an order does, by transfer or from a wallet, said on the rows: when
    the payment is accepted, why it is not, and every row it writes. */
module PurchaseOutcomes {
  import opened Results
  import opened Domain
  import opened Agreement
  import opened Database
  import opened DeliveryOutcomes
  import opened GateOutcomes
  import opened PaymentAcceptance
  import opened PaymentInvariant
  import opened QueueTable
  import opened SalesTable
  import opened StockTable
  import opened TillTable
  import opened WalletTable

  // ---------- rows ----------

  /** The offered items are exactly as many free items of the product as were bought. */
  predicate FullOffer(k: Stock, product: nat, quantity: int, offered: set<nat>) {
    && |offered| == quantity
    && forall i :: i in offered ==>
         i < |k.items| && k.items[i].product == product && k.items[i].state == Available && k.items[i].encrypted
  }

  lemma OfferIsExact(k: Stock, product: nat, quantity: int, offered: set<nat>)
    requires StockOk(k)
    ensures FullOffer(k, product, quantity, offered) <==> |offered| == quantity && offered <= Claimable(k, product)
    ensures FullOffer(k, product, quantity, offered) ==> ExactSet(k, product, quantity, offered) == offered
    ensures !FullOffer(k, product, quantity, offered) ==> ExactSet(k, product, quantity, offered) == {}
  {
  }

  /** Exactly the offered items are reserved for the order until the given time, and
      mapped to it. */
  ghost predicate ItemsReserved(k: Stock, k': Stock, o: nat, until: int, offered: set<nat>) {
    && |k'.items| == |k.items|
    && (forall i :: 0 <= i < |k.items| ==>
          k'.items[i] == if i in offered then
                           k.items[i].(state := StockTable.Reserved(o, until), version := k.items[i].version + 1)
                         else k.items[i])
    && (forall key :: key in k'.mappings <==> key in k.mappings || (key.0 == o && key.1 in offered))
    && (forall key :: key in k'.mappings ==>
          k'.mappings[key] == if key.0 == o && key.1 in offered then StockTable.Active else k.mappings[key])
  }

  /** The order is paid, holds the offered items, and has its job. */
  ghost predicate Bought(db: Db, db': Db, o: nat, payment: Payment, terms: Terms, paid: string, claimed: string) {
    && o < |db.sales.orders| && db.sales.orders[o].user < |db.sales.users|
    && var order := db.sales.orders[o];
    && db'.sales == MovedOn(MovedOn(MovedOn(db.sales, o, Paid, paid), o, Reserving, claimed),
                            o, Delivering, "delivery_job_created")
    && ItemsReserved(db.stock, db'.stock, o, terms.until, terms.offered)
    && db'.queue == Queue(db.queue.jobs + [Job(o, db.sales.users[order.user].chat, JobPending, None, 0,
                                               terms.maxAttempts, terms.now, None, NoResolution, 1,
                                               terms.maxAttempts)], db.queue.attempts)
    && db'.till.payments == db.till.payments + [payment]
    && db'.till.allocations == db.till.allocations + [Allocation(|db.till.payments|, OrderTarget(o), order.total)]
    && db'.till.reviews == db.till.reviews
  }

  /** One event changes its status, and nothing else about it. */
  function Marked(events: seq<PaymentEvent>, event: Option<nat>, status: EventStatus): seq<PaymentEvent> {
    match event
    case None => events
    case Some(e) => if e < |events| then events[e := events[e].(status := status)] else events
  }

  // ---------- the fulfilment ----------

  lemma PassThroughWrites(s: Sales, o: nat, paid: string, claimed: string)
    requires o < |s.orders| && s.orders[o].status == PendingPayment
    ensures PassThroughPaid(s, o, paid, claimed) == Ok(MovedOn(MovedOn(s, o, Paid, paid), o, Reserving, claimed))
  {
    MoveWrites(s, o, Paid, paid);
    MoveWrites(MovedOn(s, o, Paid, paid), o, Reserving, claimed);
  }

  lemma ReservationWrites(k: Stock, o: nat, until: int, product: nat, offered: set<nat>)
    requires StockOk(k) && offered <= Claimable(k, product)
    ensures var r := InsertMappings(Reserve(k, o, until, offered), o, offered);
            r.Ok? && ItemsReserved(k, r.value, o, until, offered)
  {
    ClaimMaps(k, o, until, product, offered);
  }

  /** In a sound state an order that is paid with a full offer is always fulfilled. */
  lemma FulfilmentIsExact(db: Db, s2: Sales, t: Till, w: Wallets, o: nat, terms: Terms, paid: string, claimed: string,
                          payment: Payment)
    requires Inv(db)
    requires o < |db.sales.orders| && db.sales.orders[o].status == PendingPayment
    requires FullOffer(db.stock, db.sales.orders[o].product, db.sales.orders[o].quantity, terms.offered)
    requires terms.maxAttempts > 0 && db.sales.orders[o].total > 0
    requires PassThroughPaid(db.sales, o, paid, claimed) == Ok(s2)
    requires t == db.till.(payments := db.till.payments + [payment])
    ensures var r := Fulfil(db.(sales := s2, till := t, wallets := w), o, |db.till.payments|, terms.offered, terms);
            && r.Ok? && Bought(db, r.value, o, payment, terms, paid, claimed)
            && r.value == db.(sales := r.value.sales, stock := r.value.stock, queue := r.value.queue,
                              till := r.value.till, wallets := w)
            && r.value.till.events == db.till.events
  {
    var product := db.sales.orders[o].product;
    assert Holds(StockSound, db) && Holds(TillSound, db);
    OfferIsExact(db.stock, product, db.sales.orders[o].quantity, terms.offered);
    PassThroughWrites(db.sales, o, paid, claimed);
    assert Paying(db, s2, o, terms.offered, paid, claimed);
    PayingFacts(db, s2, o, terms.offered, terms.until, paid, claimed);
    ReservationWrites(db.stock, o, terms.until, product, terms.offered);
    ClaimHolders(db.stock, o, terms.until, product, terms.offered);
    var stock := InsertMappings(Reserve(db.stock, o, terms.until, terms.offered), o, terms.offered).value;
    FirstAllocation(db, t, OrderTarget(o), payment);
    var till := t.(allocations := t.allocations + [Allocation(|db.till.payments|, OrderTarget(o), s2.orders[o].total)]);
    var ready := db.(sales := s2, stock := stock, till := till, wallets := w);
    DeliverableIsReserved(stock, o);
    HandoffIsExact(ready, o, terms.now, terms.maxAttempts);
  }

  lemma FirstAllocation(db: Db, t: Till, target: Target, payment: Payment)
    requires TillOk(db.till) && FindTarget(db.till, target).None?
    requires t == db.till.(payments := db.till.payments + [payment])
    ensures FindAllocation(t, |db.till.payments|).None? && FindTarget(t, target).None?
  {
    forall a | 0 <= a < |t.allocations|
      ensures t.allocations[a].payment != |db.till.payments| && t.allocations[a].target != target
    {
      assert AllocationOk(db.till, a);
    }
  }

  // ---------- a transfer for an order ----------

  /** The row of a transfer. */
  function TransferRow(c: PaymentCommand, order: Option<nat>, user: nat, confirmed: bool): Payment {
    Payment(order, user, c.provider, c.environment, c.transaction, c.reference, c.amount, confirmed)
  }

  /** No payment of this transaction is recorded yet. */
  predicate NewTransaction(t: Till, c: PaymentCommand) {
    forall p :: 0 <= p < |t.payments| ==>
      !(t.payments[p].provider == c.provider && t.payments[p].environment == c.environment
        && t.payments[p].transaction == c.transaction)
  }

  /** The event of the command, if it has one, is being processed. */
  predicate HasOpenEvent(t: Till, c: PaymentCommand) {
    c.event.Some? ==> c.event.value < |t.events| && t.events[c.event.value].status == EventProcessing
  }

  predicate NamesOrder(db: Db, c: PaymentCommand, o: nat) {
    o < |db.sales.orders| && db.sales.orders[o].reference == c.reference
  }

  predicate NamesTopup(db: Db, c: PaymentCommand, u: nat) {
    u < |db.wallets.topups| && db.wallets.topups[u].reference == c.reference
  }

  /** The till after a transfer that was put under review. */
  function TillInReview(t: Till, c: PaymentCommand, payment: Payment, target: Target, reason: string): Till {
    Till(t.payments + [payment], t.allocations,
         t.reviews + [Review(c.event, Some(|t.payments|), Some(target), reason, Open)],
         Marked(t.events, c.event, EventInReview))
  }

  /** In a sound state the event that is being processed has no case yet, so each
      refusal opens a new one. */
  lemma ReviewWrites(db: Db, c: PaymentCommand, payment: Payment, target: Target, reason: string)
    requires TillOk(db.till) && HasOpenEvent(db.till, c)
    ensures var paid := db.(till := db.till.(payments := db.till.payments + [payment]));
            RecordReview(paid, c, Some(|db.till.payments|), Some(target), reason) ==
            Ok((db.(till := TillInReview(db.till, c, payment, target, reason)),
                Acceptance(InReview(reason), Some(|db.till.payments|), 0)))
  {
    var paid := db.till.(payments := db.till.payments + [payment]);
    if c.event.Some? {
      assert FindReviewOfEvent(paid, c.event.value).None?;
    }
  }

  lemma PaymentWrites(t: Till, payment: Payment)
    requires payment.amount > 0
    requires forall p :: 0 <= p < |t.payments| ==>
               !SameTransaction(t.payments[p], payment.provider, payment.environment, payment.transaction)
    ensures InsertPayment(t, payment) == Ok(t.(payments := t.payments + [payment]))
  {
  }

  /** A transfer pays an order that waits for exactly this amount, in the shop's
      currency, before its window ends, to its bank account. */
  predicate Pays(order: Order, c: PaymentCommand, now: int) {
    && order.total == c.amount && c.currency == "VND"
    && order.status == PendingPayment && order.expiresAt > now
    && order.environment == c.environment && (c.destination.None? || c.destination.value == order.bank)
  }

  /** Why a transfer does not pay an order: the first thing that is wrong. */
  lemma OrderReasonsAreExact(order: Order, c: PaymentCommand, now: int)
    ensures var reason := OrderProblem(order, c, now);
            var exact := order.total == c.amount;
            var open := order.status !in {Expired, Cancelled} && order.expiresAt > now;
            && (reason == "" <==> Pays(order, c, now))
            && (reason == "amount_mismatch" <==> !exact)
            && (reason == "currency_mismatch" <==> exact && c.currency != "VND")
            && (reason == "late_or_cancelled" <==> exact && c.currency == "VND" && !open)
            && (reason == "competing_payment" <==>
                exact && c.currency == "VND" && open && order.status != PendingPayment)
            && (reason == "provider_destination_account_mismatch" <==>
                exact && c.currency == "VND" && open && order.status == PendingPayment && !Pays(order, c, now))
  {
  }

  /** A first transfer that names one order, in a sound state, fails only if its amount is
      not positive, or a job would get no attempts. It is accepted if and only if it pays
      the order and enough items are free; without items it is confirmed and the order is
      out of stock; otherwise it is recorded and put under review, for the first thing
      that is wrong, and nothing else happens. */
  lemma OrderDecision(db: Db, c: PaymentCommand, o: nat, terms: Terms)
    requires Inv(db) && HasOpenEvent(db.till, c) && NewTransaction(db.till, c)
    requires NamesOrder(db, c, o) && forall u :: 0 <= u < |db.wallets.topups| ==> !NamesTopup(db, c, u)
    ensures var r := AcceptPayment(db, c, terms);
            var order := db.sales.orders[o];
            var full := FullOffer(db.stock, order.product, order.quantity, terms.offered);
            && (r.Ok? <==> c.amount > 0 && (Pays(order, c, terms.now) && full ==> terms.maxAttempts > 0))
            && (r.Ok? ==>
                  if !Pays(order, c, terms.now) then Refused(db, r.value, c, o, OrderProblem(order, c, terms.now))
                  else if !full then OutOfItems(db, r.value, c, o)
                  else PaidByTransfer(db, r.value, c, o, terms))
  {
    var order := db.sales.orders[o];
    assert Holds(StockSound, db);
    OrderReasonsAreExact(order, c, terms.now);
    OfferIsExact(db.stock, order.product, order.quantity, terms.offered);
    NewTransferIsForOrder(db, c, o, terms);
    if c.amount <= 0 {
    } else if !Pays(order, c, terms.now) {
      RefusalIsExact(db, c, o, terms);
    } else if !FullOffer(db.stock, order.product, order.quantity, terms.offered) {
      ShortageIsExact(db, c, o, terms);
    } else if terms.maxAttempts > 0 {
      PaidTransferIsExact(db, c, o, terms);
    } else {
      NoAttemptsNoPayment(db, c, o, terms);
    }
  }

  ghost predicate Refused(db: Db, result: (Db, Acceptance), c: PaymentCommand, o: nat, reason: string)
    requires o < |db.sales.orders|
  {
    var payment := TransferRow(c, Some(o), db.sales.orders[o].user, false);
    && result.1 == Acceptance(InReview(reason), Some(|db.till.payments|), 0)
    && result.0 == db.(till := TillInReview(db.till, c, payment, OrderTarget(o), reason))
  }

  ghost predicate OutOfItems(db: Db, result: (Db, Acceptance), c: PaymentCommand, o: nat)
    requires o < |db.sales.orders|
  {
    var payment := TransferRow(c, Some(o), db.sales.orders[o].user, true);
    var reserving := MovedOn(MovedOn(db.sales, o, Paid, "payment_accepted"), o, Reserving, "inventory_claim_started");
    && result.1 == Acceptance(InReview("out_of_stock"), Some(|db.till.payments|), 0)
    && result.0 == db.(till := TillInReview(db.till, c, payment, OrderTarget(o), "out_of_stock"),
                       sales := MovedOn(reserving, o, OutOfStock, "post_payment_inventory_insufficient"))
  }

  ghost predicate PaidByTransfer(db: Db, result: (Db, Acceptance), c: PaymentCommand, o: nat, terms: Terms)
    requires o < |db.sales.orders|
  {
    var payment := TransferRow(c, Some(o), db.sales.orders[o].user, true);
    && result.1 == Acceptance(Accepted, Some(|db.till.payments|), |terms.offered|)
    && Bought(db, result.0, o, payment, terms, "payment_accepted", "inventory_claim_started")
    && result.0.till.events == Marked(db.till.events, c.event, EventCompleted)
    && result.0.wallets == db.wallets && result.0.gate == db.gate
  }

  lemma NoAttemptsNoPayment(db: Db, c: PaymentCommand, o: nat, terms: Terms)
    requires terms.maxAttempts == 0
    requires o < |db.sales.orders| && OrderProblem(db.sales.orders[o], c, terms.now) == ""
    requires ExactSet(db.stock, db.sales.orders[o].product, db.sales.orders[o].quantity, terms.offered) == terms.offered
    requires |terms.offered| == db.sales.orders[o].quantity
    ensures AcceptForOrder(db, c, o, terms).Err?
  {
    if AcceptForOrder(db, c, o, terms).Ok? {
      var s2, handed := AcceptedForOrder(db, c, o, terms);
      assert false;
    }
  }

  lemma NewTransferIsForOrder(db: Db, c: PaymentCommand, o: nat, terms: Terms)
    requires Inv(db) && HasOpenEvent(db.till, c) && NewTransaction(db.till, c)
    requires NamesOrder(db, c, o) && forall u :: 0 <= u < |db.wallets.topups| ==> !NamesTopup(db, c, u)
    ensures AcceptPayment(db, c, terms) == AcceptForOrder(db, c, o, terms)
  {
    assert Holds(SalesSound, db);
    var found := FindByReference(db.sales, c.reference);
    assert found.Some? && found.value == o;
    assert FindTopupByReference(db.wallets, c.reference).None? by {
      var t := FindTopupByReference(db.wallets, c.reference);
      if t.Some? {
        assert NamesTopup(db, c, t.value);
      }
    }
  }

  lemma RefusalIsExact(db: Db, c: PaymentCommand, o: nat, terms: Terms)
    requires Inv(db) && HasOpenEvent(db.till, c) && c.amount > 0 && NewTransaction(db.till, c)
    requires o < |db.sales.orders| && OrderProblem(db.sales.orders[o], c, terms.now) != ""
    ensures var r := AcceptForOrder(db, c, o, terms);
            r.Ok? && Refused(db, r.value, c, o, OrderProblem(db.sales.orders[o], c, terms.now))
  {
    assert Holds(TillSound, db);
    var payment := TransferRow(c, Some(o), db.sales.orders[o].user, false);
    PaymentWrites(db.till, payment);
    ReviewWrites(db, c, payment, OrderTarget(o), OrderProblem(db.sales.orders[o], c, terms.now));
  }

  lemma ShortageIsExact(db: Db, c: PaymentCommand, o: nat, terms: Terms)
    requires Inv(db) && HasOpenEvent(db.till, c) && c.amount > 0 && NewTransaction(db.till, c)
    requires o < |db.sales.orders| && OrderProblem(db.sales.orders[o], c, terms.now) == ""
    requires ExactSet(db.stock, db.sales.orders[o].product, db.sales.orders[o].quantity, terms.offered) == {}
    ensures var r := AcceptForOrder(db, c, o, terms);
            r.Ok? && OutOfItems(db, r.value, c, o)
  {
    assert Holds(TillSound, db) && Holds(SalesSound, db);
    assert OrderOk(db.sales, o);
    var payment := TransferRow(c, Some(o), db.sales.orders[o].user, true);
    PaymentWrites(db.till, payment);
    PassThroughWrites(db.sales, o, "payment_accepted", "inventory_claim_started");
    var reserving := MovedOn(MovedOn(db.sales, o, Paid, "payment_accepted"), o, Reserving, "inventory_claim_started");
    MoveWrites(reserving, o, OutOfStock, "post_payment_inventory_insufficient");
    var short := MovedOn(reserving, o, OutOfStock, "post_payment_inventory_insufficient");
    ReviewWrites(db.(sales := short), c, payment, OrderTarget(o), "out_of_stock");
  }

  lemma PaidTransferIsExact(db: Db, c: PaymentCommand, o: nat, terms: Terms)
    requires Inv(db) && HasOpenEvent(db.till, c) && c.amount > 0 && NewTransaction(db.till, c)
    requires terms.maxAttempts > 0
    requires o < |db.sales.orders| && OrderProblem(db.sales.orders[o], c, terms.now) == ""
    requires FullOffer(db.stock, db.sales.orders[o].product, db.sales.orders[o].quantity, terms.offered)
    ensures var r := AcceptForOrder(db, c, o, terms);
            r.Ok? && PaidByTransfer(db, r.value, c, o, terms)
  {
    var order := db.sales.orders[o];
    assert Holds(StockSound, db);
    OrderReasonsAreExact(order, c, terms.now);
    OfferIsExact(db.stock, order.product, order.quantity, terms.offered);
    var payment := TransferRow(c, Some(o), order.user, true);
    PaymentWrites(db.till, payment);
    PassThroughWrites(db.sales, o, "payment_accepted", "inventory_claim_started");
    var s2 := PassThroughPaid(db.sales, o, "payment_accepted", "inventory_claim_started").value;
    FulfilmentIsExact(db, s2, db.till.(payments := db.till.payments + [payment]), db.wallets, o, terms,
                      "payment_accepted", "inventory_claim_started", payment);
  }
}
