/** Acceptance of a provider or manual payment: match it to an order or a
    top-up, allocate it exactly, or put it under review. */
module PaymentAcceptance {
  import opened Results
  import opened Domain
  import opened Database
  import opened Delivery
  import opened SalesTable
  import opened StockTable
  import opened Text
  import opened TillTable
  import opened WalletTable

  /** destination is the local bank account the provider's account maps to. */
  datatype PaymentCommand = PaymentCommand(
    event: Option<nat>, provider: string, transaction: string, reference: string,
    amount: int, currency: string, environment: string, destination: Option<nat>)

  datatype Decision = Duplicate | Accepted | InReview(reason: string)

  datatype Acceptance = Acceptance(decision: Decision, payment: Option<nat>, claimed: nat)

  /** What the caller fixes for one acceptance: its clock, when a reservation ends,
      the attempts a delivery job gets, and the rows a claim finds unlocked. */
  datatype Terms = Terms(now: int, until: int, maxAttempts: nat, offered: set<nat>)

  function PaymentFor(c: PaymentCommand, order: Option<nat>, user: nat, confirmed: bool): Payment {
    Payment(order, user, c.provider, c.environment, c.transaction, c.reference, c.amount, confirmed)
  }

  /** recordPaymentReview and recordTopupReview. */
  function RecordReview(db: Db, c: PaymentCommand, payment: Option<nat>, target: Option<Target>,
                        reason: string): Result<(Db, Acceptance)>
  {
    var filed := InsertReview(db.till, Review(c.event, payment, target, reason, Open));
    var till :- FinishEvent(filed, c.event, EventInReview);
    Ok((db.(till := till), Acceptance(InReview(reason), payment, 0)))
  }

  predicate SameEvidence(existing: Payment, c: PaymentCommand) {
    && existing.reference == c.reference
    && existing.amount == c.amount
    && c.currency == CURRENCY
    && existing.environment == c.environment
  }

  /** handleExistingPayment. */
  function HandleExisting(db: Db, c: PaymentCommand, p: nat): Result<(Db, Acceptance)>
    requires p < |db.till.payments|
  {
    var existing := db.till.payments[p];
    var target := if existing.order.Some? then Some(OrderTarget(existing.order.value)) else None;
    if !SameEvidence(existing, c) then RecordReview(db, c, Some(p), target, "transaction_conflict")
    else if FindAllocation(db.till, p).Some? then
      var till :- FinishEvent(db.till, c.event, EventCompleted);
      Ok((db.(till := till), Acceptance(Duplicate, Some(p), 0)))
    else RecordReview(db, c, Some(p), target, "duplicate_unallocated")
  }

  function OrderReviewReason(order: Order, c: PaymentCommand, now: int): string {
    if order.total != c.amount then "amount_mismatch"
    else if c.currency != CURRENCY then "currency_mismatch"
    else if order.status == Expired || order.status == Cancelled || order.expiresAt <= now then "late_or_cancelled"
    else if order.status != PendingPayment then "competing_payment"
    else ""
  }

  /** orderReviewReason and the destination check after it. */
  function OrderProblem(order: Order, c: PaymentCommand, now: int): string {
    var reason := OrderReviewReason(order, c, now);
    if reason != "" then reason
    else if order.environment != c.environment || (c.destination.Some? && c.destination.value != order.bank)
    then "provider_destination_account_mismatch"
    else ""
  }

  function TopupProblem(topup: Topup, c: PaymentCommand, now: int): string {
    if topup.environment != c.environment || (c.destination.Some? && c.destination.value != topup.bank)
    then "provider_destination_account_mismatch"
    else if topup.amount != c.amount then "amount_mismatch"
    else if c.currency != CURRENCY then "currency_mismatch"
    else if topup.status != TopupPending || topup.expiresAt <= now then "topup_expired"
    else ""
  }

  /** The end of every order payment, by transfer or from a wallet: map the claimed
      items, allocate the payment, and hand the order to delivery. */
  function Fulfil(db: Db, o: nat, payment: nat, claimed: set<nat>, terms: Terms): Result<Db>
    requires o < |db.sales.orders|
  {
    var stock :- InsertMappings(Reserve(db.stock, o, terms.until, claimed), o, claimed);
    var till :- InsertAllocation(db.till, Allocation(payment, OrderTarget(o), db.sales.orders[o].total));
    var (handed, _) :- Handoff(db.(stock := stock, till := till), o, terms.now, terms.maxAttempts);
    Ok(handed)
  }

  /** The order branch of acceptPaymentWithinTransaction. */
  function AcceptForOrder(db: Db, c: PaymentCommand, o: nat, terms: Terms): Result<(Db, Acceptance)>
    requires o < |db.sales.orders|
  {
    var order := db.sales.orders[o];
    var p := |db.till.payments|;
    var reason := OrderProblem(order, c, terms.now);
    if reason != "" then
      var till :- InsertPayment(db.till, PaymentFor(c, Some(o), order.user, false));
      RecordReview(db.(till := till), c, Some(p), Some(OrderTarget(o)), reason)
    else
      var till :- InsertPayment(db.till, PaymentFor(c, Some(o), order.user, true));
      var reserving :- PassThroughPaid(db.sales, o, "payment_accepted", "inventory_claim_started");
      var claimed := ExactSet(db.stock, order.product, order.quantity, terms.offered);
      if |claimed| != order.quantity then
        var short :- Move(reserving, o, Reserving, OutOfStock, "post_payment_inventory_insufficient");
        RecordReview(db.(till := till, sales := short), c, Some(p), Some(OrderTarget(o)), "out_of_stock")
      else
        var handed :- Fulfil(db.(sales := reserving, till := till), o, p, claimed, terms);
        var finished :- FinishEvent(handed.till, c.event, EventCompleted);
        Ok((handed.(till := finished), Acceptance(Accepted, Some(p), |claimed|)))
  }

  /** acceptWalletTopupPayment. */
  function AcceptForTopup(db: Db, c: PaymentCommand, t: nat, now: int): Result<(Db, Acceptance)>
    requires t < |db.wallets.topups|
  {
    var topup := db.wallets.topups[t];
    var p := |db.till.payments|;
    var reason := TopupProblem(topup, c, now);
    if reason != "" then
      var till :- InsertPayment(db.till, PaymentFor(c, None, topup.user, false));
      var wallets :- if topup.status in {TopupPending, TopupExpired} then MarkInReview(db.wallets, t)
        else Ok(db.wallets);
      RecordReview(db.(till := till, wallets := wallets), c, Some(p), Some(TopupTarget(t)), reason)
    else
      var till :- InsertPayment(db.till, PaymentFor(c, None, topup.user, true));
      var posted :- Post(db.wallets, topup.account, FromTopup(t), c.amount, "payment:" + Decimal(p));
      var wallets :- MarkCredited(posted, t, topup.version);
      var booked :- InsertAllocation(till, Allocation(p, TopupTarget(t), c.amount));
      var finished :- FinishEvent(booked, c.event, EventCompleted);
      Ok((db.(till := finished, wallets := wallets), Acceptance(Accepted, Some(p), 0)))
  }

  /** acceptPaymentWithinTransaction after the event is locked. */
  function Decide(db: Db, c: PaymentCommand, terms: Terms): Result<(Db, Acceptance)> {
    match FindPayment(db.till, c.provider, c.environment, c.transaction)
    case Some(p) => HandleExisting(db, c, p)
    case None =>
      var order := FindByReference(db.sales, c.reference);
      var topup := FindTopupByReference(db.wallets, c.reference);
      if order.Some? && topup.Some? then RecordReview(db, c, None, None, "provider_ambiguous_reference")
      else if order.Some? then AcceptForOrder(db, c, order.value, terms)
      else if topup.Some? then AcceptForTopup(db, c, topup.value, terms.now)
      else RecordReview(db, c, None, None, "unknown_reference")
  }

  function AcceptPayment(db: Db, c: PaymentCommand, terms: Terms): Result<(Db, Acceptance)> {
    match c.event
    case None => Decide(db, c, terms)
    case Some(e) =>
      if e >= |db.till.events| then Err(NoRows)
      else if db.till.events[e].status == EventCompleted || db.till.events[e].status == EventInReview then
        Ok((db, Acceptance(Duplicate, None, 0)))
      else if db.till.events[e].status != EventProcessing then Err(Conflict)
      else Decide(db, c, terms)
  }

  /** A transfer that fulfils its order: the payment is recorded, the order passes
      through Paid and Reserving, and the fulfilment does the rest. */
  lemma AcceptedForOrder(db: Db, c: PaymentCommand, o: nat, terms: Terms) returns (s2: Sales, handed: Db)
    requires o < |db.sales.orders| && OrderProblem(db.sales.orders[o], c, terms.now) == ""
    requires |ExactSet(db.stock, db.sales.orders[o].product, db.sales.orders[o].quantity, terms.offered)| ==
             db.sales.orders[o].quantity
    requires AcceptForOrder(db, c, o, terms).Ok?
    ensures PassThroughPaid(db.sales, o, "payment_accepted", "inventory_claim_started") == Ok(s2)
    ensures o < |s2.orders|
    ensures s2.orders[o] == db.sales.orders[o].(status := s2.orders[o].status, version := s2.orders[o].version)
    ensures var till := InsertPayment(db.till, PaymentFor(c, Some(o), db.sales.orders[o].user, true));
            var claimed := ExactSet(db.stock, db.sales.orders[o].product, db.sales.orders[o].quantity, terms.offered);
            && till.Ok?
            && Fulfil(db.(sales := s2, till := till.value), o, |db.till.payments|, claimed, terms) == Ok(handed)
    ensures FinishEvent(handed.till, c.event, EventCompleted).Ok?
    ensures AcceptForOrder(db, c, o, terms).value.0 ==
            handed.(till := FinishEvent(handed.till, c.event, EventCompleted).value)
  {
    var order := db.sales.orders[o];
    var claimed := ExactSet(db.stock, order.product, order.quantity, terms.offered);
    s2 := PassThroughPaid(db.sales, o, "payment_accepted", "inventory_claim_started").value;
    handed := Fulfil(db.(sales := s2,
                         till := InsertPayment(db.till, PaymentFor(c, Some(o), order.user, true)).value), o,
                             |db.till.payments|, claimed, terms).value;
  }

  /** The two databases differ only in tills and wallets. */
  ghost predicate OnlyMoney(db: Db, db': Db) {
    db'.sales == db.sales && db'.stock == db.stock && db'.queue == db.queue && db'.gate == db.gate
  }

  lemma ReviewsAreOnlyMoney(db: Db, c: PaymentCommand, payment: Option<nat>, target: Option<Target>, reason: string)
    ensures var r := RecordReview(db, c, payment, target, reason); r.Ok? ==> OnlyMoney(db, r.value.0)
  {
  }

  lemma KnownIsOnlyMoney(db: Db, c: PaymentCommand, p: nat)
    requires p < |db.till.payments|
    ensures HandleExisting(db, c, p).Ok? ==> OnlyMoney(db, HandleExisting(db, c, p).value.0)
  {
  }

  lemma TopupsAreOnlyMoney(db: Db, c: PaymentCommand, t: nat, now: int)
    requires t < |db.wallets.topups|
    ensures AcceptForTopup(db, c, t, now).Ok? ==> OnlyMoney(db, AcceptForTopup(db, c, t, now).value.0)
  {
  }

  /** Orders, items, jobs and sessions only move when a payment is accepted for, or
      short of, the order its reference names. */
  lemma OnlyOrderPaymentsMove(db: Db, c: PaymentCommand, terms: Terms)
    requires AcceptPayment(db, c, terms).Ok?
    ensures var order := FindByReference(db.sales, c.reference);
            || OnlyMoney(db, AcceptPayment(db, c, terms).value.0)
            || (order.Some? && AcceptPayment(db, c, terms) == AcceptForOrder(db, c, order.value, terms))
  {
    match FindPayment(db.till, c.provider, c.environment, c.transaction)
    case Some(p) => KnownIsOnlyMoney(db, c, p);
    case None =>
      ReviewsAreOnlyMoney(db, c, None, None, "provider_ambiguous_reference");
      ReviewsAreOnlyMoney(db, c, None, None, "unknown_reference");
      var topup := FindTopupByReference(db.wallets, c.reference);
      if topup.Some? {
        TopupsAreOnlyMoney(db, c, topup.value, terms.now);
      }
  }
}
