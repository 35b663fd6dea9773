/** What acceptances and payments do to the inbound events: each closes its own
    event at most, and a settled event never changes again. */
module EventSettlement {
  import opened Results
  import opened Database
  import opened PaymentAcceptance
  import opened PaymentAdmin
  import opened TillTable
  import opened WalletStore
  import Domain
  import GateTable
  import SalesTable
  import StockTable
  import WalletTable

  predicate IsProcessing(t: Till, e: nat) {
    e < |t.events| && t.events[e].status == EventProcessing
  }

  /** Only this event changed. */
  ghost predicate OnlyEvent(t: Till, t': Till, e: nat) {
    && |t'.events| == |t.events|
    && forall i :: 0 <= i < |t.events| && i != e ==> t'.events[i] == t.events[i]
  }

  predicate Settled(event: PaymentEvent) {
    event.status in {EventCompleted, EventInReview, EventFailed}
  }

  /** Events are only added, and a settled one never changes again. */
  ghost predicate EventsForward(t: Till, t': Till) {
    && |t.events| <= |t'.events|
    && forall e :: 0 <= e < |t.events| && Settled(t.events[e]) ==> t'.events[e] == t.events[e]
  }

  /** What closing the event of a command does to the events: nothing without an
      event, and otherwise that one event is completed or under review. */
  ghost predicate Closes(t: Till, t': Till, event: Option<nat>) {
    match event
    case None => t'.events == t.events
    case Some(e) => OnlyEvent(t, t', e) && e < |t'.events| && t'.events[e].status in {EventCompleted, EventInReview}
  }

  lemma KnownCloses(db: Db, c: PaymentCommand, p: nat)
    requires p < |db.till.payments|
    requires HandleExisting(db, c, p).Ok?
    ensures Closes(db.till, HandleExisting(db, c, p).value.0.till, c.event)
  {
  }

  lemma ReviewCloses(db: Db, c: PaymentCommand, payment: Option<nat>, target: Option<Target>, reason: string)
    requires RecordReview(db, c, payment, target, reason).Ok?
    ensures Closes(db.till, RecordReview(db, c, payment, target, reason).value.0.till, c.event)
  {
  }

  lemma TopupCloses(db: Db, c: PaymentCommand, u: nat, now: int)
    requires u < |db.wallets.topups|
    requires AcceptForTopup(db, c, u, now).Ok?
    ensures Closes(db.till, AcceptForTopup(db, c, u, now).value.0.till, c.event)
  {
  }

  lemma FulfilKeepsEvents(db: Db, o: nat, payment: nat, claimed: set<nat>, terms: Terms)
    requires o < |db.sales.orders|
    requires Fulfil(db, o, payment, claimed, terms).Ok?
    ensures Fulfil(db, o, payment, claimed, terms).value.till.events == db.till.events
  {
  }

  lemma OrderCloses(db: Db, c: PaymentCommand, o: nat, terms: Terms)
    requires o < |db.sales.orders|
    requires AcceptForOrder(db, c, o, terms).Ok?
    ensures Closes(db.till, AcceptForOrder(db, c, o, terms).value.0.till, c.event)
  {
    var order := db.sales.orders[o];
    if OrderProblem(order, c, terms.now) != "" {
      RefusedCloses(db, c, o, terms);
    } else if |StockTable.ExactSet(db.stock, order.product, order.quantity, terms.offered)| == order.quantity {
      FulfilledCloses(db, c, o, terms);
    } else {
      ShortCloses(db, c, o, terms);
    }
  }

  lemma RefusedCloses(db: Db, c: PaymentCommand, o: nat, terms: Terms)
    requires o < |db.sales.orders| && OrderProblem(db.sales.orders[o], c, terms.now) != ""
    requires AcceptForOrder(db, c, o, terms).Ok?
    ensures Closes(db.till, AcceptForOrder(db, c, o, terms).value.0.till, c.event)
  {
    var order := db.sales.orders[o];
    var till := InsertPayment(db.till, PaymentFor(c, Some(o), order.user, false)).value;
    ReviewCloses(db.(till := till), c, Some(|db.till.payments|), Some(OrderTarget(o)),
                 OrderProblem(order, c, terms.now));
  }

  lemma FulfilledCloses(db: Db, c: PaymentCommand, o: nat, terms: Terms)
    requires o < |db.sales.orders| && OrderProblem(db.sales.orders[o], c, terms.now) == ""
    requires var order := db.sales.orders[o];
             |StockTable.ExactSet(db.stock, order.product, order.quantity, terms.offered)| == order.quantity
    requires AcceptForOrder(db, c, o, terms).Ok?
    ensures Closes(db.till, AcceptForOrder(db, c, o, terms).value.0.till, c.event)
  {
    var order := db.sales.orders[o];
    var claimed := StockTable.ExactSet(db.stock, order.product, order.quantity, terms.offered);
    var till := InsertPayment(db.till, PaymentFor(c, Some(o), order.user, true)).value;
    var s2, handed := AcceptedForOrder(db, c, o, terms);
    FulfilKeepsEvents(db.(sales := s2, till := till), o, |db.till.payments|, claimed, terms);
    FinishCloses(db.till, handed.till, c.event);
  }

  lemma FinishCloses(t: Till, t1: Till, event: Option<nat>)
    requires t1.events == t.events
    requires FinishEvent(t1, event, EventCompleted).Ok?
    ensures Closes(t, FinishEvent(t1, event, EventCompleted).value, event)
  {
  }

  lemma ShortCloses(db: Db, c: PaymentCommand, o: nat, terms: Terms)
    requires o < |db.sales.orders| && OrderProblem(db.sales.orders[o], c, terms.now) == ""
    requires var order := db.sales.orders[o];
             |StockTable.ExactSet(db.stock, order.product, order.quantity, terms.offered)| != order.quantity
    requires AcceptForOrder(db, c, o, terms).Ok?
    ensures Closes(db.till, AcceptForOrder(db, c, o, terms).value.0.till, c.event)
  {
    var till := InsertPayment(db.till, PaymentFor(c, Some(o), db.sales.orders[o].user, true)).value;
    var s2 := SalesTable.PassThroughPaid(db.sales, o, "payment_accepted", "inventory_claim_started").value;
    var short := SalesTable.Move(s2, o, Domain.Reserving, Domain.OutOfStock,
                                 "post_payment_inventory_insufficient").value;
    ReviewCloses(db.(till := till, sales := short), c, Some(|db.till.payments|), Some(OrderTarget(o)), "out_of_stock");
  }

  lemma DecisionCloses(db: Db, c: PaymentCommand, terms: Terms)
    requires Decide(db, c, terms).Ok?
    ensures Closes(db.till, Decide(db, c, terms).value.0.till, c.event)
  {
    match FindPayment(db.till, c.provider, c.environment, c.transaction)
    case Some(p) => KnownCloses(db, c, p);
    case None =>
      var order := SalesTable.FindByReference(db.sales, c.reference);
      var topup := WalletTable.FindTopupByReference(db.wallets, c.reference);
      if order.Some? && topup.Some? {
        ReviewCloses(db, c, None, None, "provider_ambiguous_reference");
      } else if order.Some? {
        OrderCloses(db, c, order.value, terms);
      } else if topup.Some? {
        TopupCloses(db, c, topup.value, terms.now);
      } else {
        ReviewCloses(db, c, None, None, "unknown_reference");
      }
  }

  /** A committed acceptance completes its event or puts it under review, touches no
      other event, and leaves a settled one alone. */
  lemma AcceptanceSettles(db: Db, c: PaymentCommand, terms: Terms)
    requires AcceptPayment(db, c, terms).Ok?
    ensures Closes(db.till, AcceptPayment(db, c, terms).value.0.till, c.event)
    ensures EventsForward(db.till, AcceptPayment(db, c, terms).value.0.till)
  {
    if c.event.None? || db.till.events[c.event.value].status == EventProcessing {
      DecisionCloses(db, c, terms);
    }
  }

  lemma WalletKeepsEvents(db: Db, user: nat, o: nat, key: string, update: nat, terms: Terms)
    requires PayOrder(db, user, o, key, update, terms).Ok?
    ensures PayOrder(db, user, o, key, update, terms).value.0.till.events == db.till.events
  {
    var environment := db.sales.orders[o].environment;
    if FindPayment(db.till, WALLET, environment, WalletTransaction(o)).None? {
      var (ensured, account) := WalletTable.EnsureAccount(db.wallets, user);
      var order := db.sales.orders[o];
      var start := db.(wallets := ensured);
      var s2, w, handed := PaidFromAccount(start, account, user, o, key, update, terms);
      var till := InsertPayment(db.till, WalletPaymentRow(order, user, o)).value;
      var claimed := StockTable.ExactSet(db.stock, order.product, order.quantity, terms.offered);
      FulfilKeepsEvents(start.(sales := s2, till := till, wallets := w), o, |db.till.payments|, claimed, terms);
    }
  }

  lemma ManualIsForward(db: Db, ticket: GateTable.Ticket, update: nat, c: PaymentCommand, terms: Terms)
    requires ManualAccept(db, ticket, update, c, terms).Ok?
    ensures EventsForward(db.till, ManualAccept(db, ticket, update, c, terms).value.0.till)
  {
    AcceptanceSettles(db, ByHand(c), terms);
  }
}
