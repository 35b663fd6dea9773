/** What a repeated command decides, for every command and every committed state: it
    decides nothing again. */
module PaymentOutcome {
  import opened Results
  import opened Agreement
  import opened Database
  import opened PaymentAcceptance
  import opened Progress
  import opened PurchaseOutcomes
  import opened Shop
  import opened ShopInvariant
  import opened TillTable

  /** A command whose transaction is already recorded. */
  predicate Known(db: Db, c: PaymentCommand) {
    FindPayment(db.till, c.provider, c.environment, c.transaction).Some?
  }

  /** Nothing a customer could notice: only cases and events may differ. */
  ghost predicate OnlyPaperwork(db: Db, db': Db) {
    db' == db.(till := db'.till) && SameMoney(db.till, db'.till)
  }

  /** The command says what the recorded payment says. */
  predicate Agrees(payment: Payment, c: PaymentCommand) {
    && payment.reference == c.reference && payment.amount == c.amount
    && payment.environment == c.environment && c.currency == "VND"
  }

  /** A known transaction changes no order, wallet, item, job, payment or allocation,
      whatever the command claims about it. It is a duplicate, and settles its event, if
      it agrees with the payment and the payment is allocated; otherwise it opens a case. */
  lemma KnownChangesNothing(db: Db, c: PaymentCommand, p: nat, terms: Terms)
    requires Inv(db)
    requires p < |db.till.payments| && HasOpenEvent(db.till, c)
    requires db.till.payments[p].provider == c.provider && db.till.payments[p].environment == c.environment
    requires db.till.payments[p].transaction == c.transaction
    ensures var payment := db.till.payments[p];
            var target := if payment.order.Some? then Some(OrderTarget(payment.order.value)) else None;
            var settled := exists a :: 0 <= a < |db.till.allocations| && db.till.allocations[a].payment == p;
            var reason := if Agrees(payment, c) then "duplicate_unallocated" else "transaction_conflict";
            AcceptPayment(db, c, terms) == Ok(
              if Agrees(payment, c) && settled then
                (db.(till := db.till.(events := Marked(db.till.events, c.event, EventCompleted))),
                 Acceptance(Duplicate, Some(p), 0))
              else
                (db.(till := Till(db.till.payments, db.till.allocations,
                                  db.till.reviews + [Review(c.event, Some(p), target, reason, Open)],
                                  Marked(db.till.events, c.event, EventInReview))),
                 Acceptance(InReview(reason), Some(p), 0)))
  {
    assert Holds(TillSound, db);
    assert SameTransaction(db.till.payments[p], c.provider, c.environment, c.transaction);
    assert FindPayment(db.till, c.provider, c.environment, c.transaction) == Some(p);
    if c.event.Some? {
      assert FindReviewOfEvent(db.till, c.event.value).None?;
    }
  }

  /** Whatever state its event is in. */
  lemma KnownIsPaperwork(db: Db, c: PaymentCommand, terms: Terms)
    requires Inv(db) && Known(db, c)
    ensures AcceptPayment(db, c, terms).Ok? ==> OnlyPaperwork(db, AcceptPayment(db, c, terms).value.0)
  {
    if HasOpenEvent(db.till, c) {
      var p := FindPayment(db.till, c.provider, c.environment, c.transaction).value;
      KnownChangesNothing(db, c, p, terms);
    }
  }

  lemma KnownStaysKnown(db: Db, actions: seq<Action>, c: PaymentCommand)
    requires Known(db, c)
    ensures Known(Run(db, actions), c)
  {
    var p := FindPayment(db.till, c.provider, c.environment, c.transaction).value;
    AllocationIsFinal(db, actions, p);
    assert SameTransaction(Run(db, actions).till.payments[p], c.provider, c.environment, c.transaction);
  }

  /** Replay: once a command has been decided, any later command about the same
      transaction, after any run, is only paperwork. In particular a payment that
      was put under review is never allocated by a replay. */
  lemma ReplayIsPaperwork(db: Db, actions: seq<Action>, c: PaymentCommand, terms: Terms)
    requires Inv(db)
    requires Known(db, c)
    ensures var later := Run(db, actions);
            AcceptPayment(later, c, terms).Ok? ==> OnlyPaperwork(later, AcceptPayment(later, c, terms).value.0)
  {
    RunKeeps(db, actions);
    KnownStaysKnown(db, actions, c);
    KnownIsPaperwork(Run(db, actions), c, terms);
  }
}
