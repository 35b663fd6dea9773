/** What one committed step, and so any run, can never undo: items only move
    forward, money is only recorded, never rewritten. */
module Progress {
  import opened Results
  import opened Domain
  import opened Agreement
  import opened Database
  import opened Delivery
  import opened DeliveryAdmin
  import opened OrderInvariant
  import opened PaymentAcceptance
  import opened PaymentAdmin
  import opened SalesTable
  import opened Shop
  import opened ShopInvariant
  import opened StockTable
  import opened TillTable
  import opened WalletStore
  import opened WalletTable

  // ---------- inventory ----------

  /** The moves of an item between its four states: it is reserved for an order,
      sold to the order that reserved it, or switched off and on. */
  predicate ItemMoves(from: ItemState, to: ItemState) {
    || from == to
    || (from == Available && (to.Reserved? || to == StockTable.Disabled))
    || (from.Reserved? && to == Sold(from.order))
    || (from == StockTable.Disabled && to == Available)
  }

  /** The item can be delivered for the order. */
  predicate Fits(s: Sales, item: Item, o: nat) {
    o < |s.orders| && s.orders[o].product == item.product && item.encrypted
  }

  ghost predicate ItemsMove(s: Sales, k: Stock, k': Stock) {
    && |k.items| <= |k'.items|
    && (forall i :: 0 <= i < |k.items| ==>
        && k'.items[i] == k.items[i].(state := k'.items[i].state, version := k'.items[i].version)
        && ItemMoves(k.items[i].state, k'.items[i].state))
    && (forall i :: 0 <= i < |k.items| && k.items[i].state == Available && k'.items[i].state.Reserved? ==>
        Fits(s, k'.items[i], k'.items[i].state.order))
    && (forall i :: |k.items| <= i < |k'.items| ==> k'.items[i].state == Available)
  }

  /** s is the sales before the order passed through its payment. */
  lemma FulfilItems(s: Sales, db: Db, o: nat, payment: nat, claimed: set<nat>, terms: Terms)
    requires o < |db.sales.orders| && o < |s.orders| && s.orders[o].product == db.sales.orders[o].product
    requires Fulfil(db, o, payment, claimed, terms).Ok?
    requires claimed <= Claimable(db.stock, db.sales.orders[o].product)
    ensures ItemsMove(s, db.stock, Fulfil(db, o, payment, claimed, terms).value.stock)
  {
    var reserved := Reserve(db.stock, o, terms.until, claimed);
    assert Fulfil(db, o, payment, claimed, terms).value.stock == InsertMappings(reserved, o, claimed).value;
    forall i | i in claimed
      ensures db.stock.items[i].state == Available
    {
    }
    assert InsertMappings(reserved, o, claimed).value.items == reserved.items;
  }

  lemma AcceptItems(db: Db, c: PaymentCommand, terms: Terms)
    requires AcceptPayment(db, c, terms).Ok?
    ensures ItemsMove(db.sales, db.stock, AcceptPayment(db, c, terms).value.0.stock)
  {
    OnlyOrderPaymentsMove(db, c, terms);
    var order := FindByReference(db.sales, c.reference);
    if order.Some? && AcceptForOrder(db, c, order.value, terms).Ok? {
      OrderItems(db, c, order.value, terms);
    }
  }

  lemma OrderItems(db: Db, c: PaymentCommand, o: nat, terms: Terms)
    requires o < |db.sales.orders|
    requires AcceptForOrder(db, c, o, terms).Ok?
    ensures ItemsMove(db.sales, db.stock, AcceptForOrder(db, c, o, terms).value.0.stock)
  {
    var order := db.sales.orders[o];
    var claimed := ExactSet(db.stock, order.product, order.quantity, terms.offered);
    if OrderProblem(order, c, terms.now) == "" && |claimed| == order.quantity {
      var till := InsertPayment(db.till, PaymentFor(c, Some(o), order.user, true)).value;
      var s2, handed := AcceptedForOrder(db, c, o, terms);
      FulfilItems(db.sales, db.(sales := s2, till := till), o, |db.till.payments|, claimed, terms);
    }
  }

  lemma WalletItems(db: Db, user: nat, o: nat, key: string, update: nat, terms: Terms)
    requires PayOrder(db, user, o, key, update, terms).Ok?
    ensures ItemsMove(db.sales, db.stock, PayOrder(db, user, o, key, update, terms).value.0.stock)
  {
    var order := db.sales.orders[o];
    if FindPayment(db.till, WALLET, order.environment, WalletTransaction(o)).None? {
      var (ensured, account) := EnsureAccount(db.wallets, user);
      FromWalletItems(db.(wallets := ensured), account, user, o, key, update, terms);
    }
  }

  lemma FromWalletItems(db: Db, account: nat, user: nat, o: nat, key: string, update: nat, terms: Terms)
    requires o < |db.sales.orders| && account < |db.wallets.accounts|
    requires PayFrom(db, account, user, o, key, update, terms).Ok?
    ensures ItemsMove(db.sales, db.stock, PayFrom(db, account, user, o, key, update, terms).value.0.stock)
  {
    var order := db.sales.orders[o];
    var claimed := ExactSet(db.stock, order.product, order.quantity, terms.offered);
    var till := InsertPayment(db.till, WalletPaymentRow(order, user, o)).value;
    var s2, wallets, handed := PaidFromAccount(db, account, user, o, key, update, terms);
    FulfilItems(db.sales, db.(sales := s2, till := till, wallets := wallets), o, |db.till.payments|, claimed, terms);
  }

  lemma SellItems(s: Sales, k: Stock, o: nat, expected: int)
    ensures ItemsMove(s, k, SellExact(k, o, expected).0)
  {
    forall i | i in Deliverable(k, o)
      ensures k.items[i].state.Reserved? && k.items[i].state.order == o
    {
    }
  }

  lemma {:induction false} BackfillItems(db: Db, picked: seq<nat>, now: int, maxAttempts: nat)
    requires Backfill(db, picked, now, maxAttempts).Ok?
    ensures Backfill(db, picked, now, maxAttempts).value.0.stock == db.stock
    ensures SameMoney(db.till, Backfill(db, picked, now, maxAttempts).value.0.till)
    decreases |picked|
  {
    if picked == [] {
    } else {
      if Backlogged(db, picked[0]) {
        BackfillItems(Handoff(db, picked[0], now, maxAttempts).value.0, picked[1..], now, maxAttempts);
      } else {
        BackfillItems(db, picked[1..], now, maxAttempts);
      }
    }
  }

  lemma OrderingItems(db: Db, a: OrderAction)
    requires Inv(db)
    requires ExecOrder(db, a).Ok?
    ensures ItemsMove(db.sales, db.stock, ExecOrder(db, a).value.stock)
  {
    match a
    case Release(o, reason) => ReleaseFreesNothing(db, o, reason, 0);
    case Recover(o, now) => ReleaseFreesNothing(db, o, ReleaseExpired, now);
    case _ =>
  }

  lemma ManualItems(db: Db, ticket: GateTable.Ticket, update: nat, c: PaymentCommand, terms: Terms)
    requires ManualAccept(db, ticket, update, c, terms).Ok?
    ensures ItemsMove(db.sales, db.stock, ManualAccept(db, ticket, update, c, terms).value.0.stock)
  {
    AcceptItems(db, ByHand(c), terms);
  }

  lemma PayingItems(db: Db, a: PaymentAction)
    requires ExecPayment(db, a).Ok?
    ensures ItemsMove(db.sales, db.stock, ExecPayment(db, a).value.stock)
  {
    match a
    case Accept(c, terms) => AcceptItems(db, c, terms);
    case AcceptBy(ticket, update, c, terms) => ManualItems(db, ticket, update, c, terms);
    case PayFromWallet(user, o, key, update, terms) => WalletItems(db, user, o, key, update, terms);
    case _ =>
  }

  lemma SuccessItems(db: Db, j: nat, worker: string, evidence: Evidence)
    requires FinalizeSuccess(db, j, worker, evidence).Ok?
    ensures ItemsMove(db.sales, db.stock, FinalizeSuccess(db, j, worker, evidence).value.stock)
  {
    if db.queue.jobs[j].status != JobCompleted {
      var o := db.queue.jobs[j].order;
      SellItems(db.sales, db.stock, o, db.sales.orders[o].quantity);
    }
  }

  lemma CompletedItems(db: Db, ticket: GateTable.Ticket, update: nat, j: nat, version: nat, message: int, now: int)
    requires CompleteDelivery(db, ticket, update, j, version, message, now).Ok?
    ensures ItemsMove(db.sales, db.stock, CompleteDelivery(db, ticket, update, j, version, message, now).value.stock)
  {
    var o := db.queue.jobs[j].order;
    SellItems(db.sales, db.stock, o, db.sales.orders[o].quantity);
  }

  lemma ShippingItems(db: Db, a: DeliveryAction)
    requires ExecDelivery(db, a).Ok?
    ensures ItemsMove(db.sales, db.stock, ExecDelivery(db, a).value.stock)
  {
    match a
    case BackfillBatch(picked, now, maxAttempts) => BackfillItems(db, picked, now, maxAttempts);
    case Succeed(j, worker, evidence) =>
      SuccessItems(db, j, worker, evidence);
    case CompleteBy(ticket, update, j, version, message, now) =>
      CompletedItems(db, ticket, update, j, version, message, now);
    case _ =>
  }

  /** Every committed step moves each item along its four states: no item
      disappears, changes product, leaves its sale or loses its reservation. */
  lemma StepMovesItems(db: Db, a: Action)
    requires Inv(db)
    ensures ItemsMove(db.sales, db.stock, Step(db, a).stock)
  {
    if Exec(db, a).Ok? {
      match a
      case Setup(_) =>
      case AtGate(_) =>
      case Ordering(action) => OrderingItems(db, action);
      case Paying(action) => PayingItems(db, action);
      case Shipping(action) => ShippingItems(db, action);
    }
  }

  /** A sold item stays sold to the same order for ever, and an item reserved for
      an order is later held by that order or by nobody else. */
  lemma {:induction false} SoldForEver(db: Db, actions: seq<Action>, i: nat)
    requires Inv(db)
    requires i < |db.stock.items|
    ensures i < |Run(db, actions).stock.items|
    ensures Run(db, actions).stock.items[i].product == db.stock.items[i].product
    ensures db.stock.items[i].state.Sold? ==> Run(db, actions).stock.items[i].state == db.stock.items[i].state
    ensures db.stock.items[i].state.Reserved? ==>
            Holder(Run(db, actions).stock.items[i].state) == Holder(db.stock.items[i].state)
    decreases |actions|
  {
    if actions == [] {
    } else {
      StepMovesItems(db, actions[0]);
      StepKeeps(db, actions[0]);
      SoldForEver(Step(db, actions[0]), actions[1..], i);
    }
  }

  // ---------- payments and allocations ----------

  /** Payments and allocations are only appended, and an allocation is always of
      a payment recorded in the same step. */
  ghost predicate MoneyRecorded(t: Till, t': Till) {
    && t.payments <= t'.payments
    && t.allocations <= t'.allocations
    && (forall a :: |t.allocations| <= a < |t'.allocations| ==> t'.allocations[a].payment >= |t.payments|)
  }

  /** At most one payment, of a given provider, with at most its own allocation. */
  ghost predicate OnePayment(t: Till, t': Till, provider: string) {
    || SameMoney(t, t')
    || (&& |t'.payments| == |t.payments| + 1 && t.payments <= t'.payments
        && t'.payments[|t.payments|].provider == provider
        && (|| t'.allocations == t.allocations
            || (|t'.allocations| == |t.allocations| + 1 && t.allocations <= t'.allocations
                && t'.allocations[|t.allocations|].payment == |t.payments|)))
  }

  lemma FulfilMoney(db: Db, o: nat, payment: nat, claimed: set<nat>, terms: Terms)
    requires o < |db.sales.orders|
    requires Fulfil(db, o, payment, claimed, terms).Ok?
    ensures Fulfil(db, o, payment, claimed, terms).value.till ==
            db.till.(allocations :=
                     db.till.allocations + [Allocation(payment, OrderTarget(o), db.sales.orders[o].total)])
  {
  }

  /** A till that only opens a case or closes an event. */
  lemma ReviewMoney(db: Db, c: PaymentCommand, payment: Option<nat>, target: Option<Target>, reason: string)
    requires RecordReview(db, c, payment, target, reason).Ok?
    ensures SameMoney(db.till, RecordReview(db, c, payment, target, reason).value.0.till)
  {
  }

  lemma OrderMoney(db: Db, c: PaymentCommand, o: nat, terms: Terms)
    requires o < |db.sales.orders|
    requires AcceptForOrder(db, c, o, terms).Ok?
    ensures OnePayment(db.till, AcceptForOrder(db, c, o, terms).value.0.till, c.provider)
  {
    var order := db.sales.orders[o];
    var reason := OrderProblem(order, c, terms.now);
    var claimed := ExactSet(db.stock, order.product, order.quantity, terms.offered);
    var till := InsertPayment(db.till, PaymentFor(c, Some(o), order.user, reason == "")).value;
    if reason != "" {
      ReviewMoney(db.(till := till), c, Some(|db.till.payments|), Some(OrderTarget(o)), reason);
    } else if |claimed| == order.quantity {
      var s2, handed := AcceptedForOrder(db, c, o, terms);
      FulfilMoney(db.(sales := s2, till := till), o, |db.till.payments|, claimed, terms);
    } else {
      ShortMoney(db, c, o, terms);
    }
  }

  lemma ShortMoney(db: Db, c: PaymentCommand, o: nat, terms: Terms)
    requires o < |db.sales.orders| && OrderProblem(db.sales.orders[o], c, terms.now) == ""
    requires |ExactSet(db.stock, db.sales.orders[o].product, db.sales.orders[o].quantity,
                       terms.offered)| != db.sales.orders[o].quantity
    requires AcceptForOrder(db, c, o, terms).Ok?
    ensures SameMoney(InsertPayment(db.till, PaymentFor(c, Some(o), db.sales.orders[o].user, true)).value,
                      AcceptForOrder(db, c, o, terms).value.0.till)
  {
    var till := InsertPayment(db.till, PaymentFor(c, Some(o), db.sales.orders[o].user, true)).value;
    var reserving := PassThroughPaid(db.sales, o, "payment_accepted", "inventory_claim_started").value;
    var short := Move(reserving, o, Reserving, OutOfStock, "post_payment_inventory_insufficient").value;
    ReviewMoney(db.(till := till, sales := short), c, Some(|db.till.payments|), Some(OrderTarget(o)), "out_of_stock");
  }

  lemma AcceptMoney(db: Db, c: PaymentCommand, terms: Terms)
    requires AcceptPayment(db, c, terms).Ok?
    ensures OnePayment(db.till, AcceptPayment(db, c, terms).value.0.till, c.provider)
  {
    if Decide(db, c, terms).Ok? {
      DecideMoney(db, c, terms);
    }
  }

  lemma DecideMoney(db: Db, c: PaymentCommand, terms: Terms)
    requires Decide(db, c, terms).Ok?
    ensures OnePayment(db.till, Decide(db, c, terms).value.0.till, c.provider)
  {
    match FindPayment(db.till, c.provider, c.environment, c.transaction)
    case Some(p) => KnownMoney(db, c, p);
    case None =>
      var order := FindByReference(db.sales, c.reference);
      var topup := FindTopupByReference(db.wallets, c.reference);
      if order.Some? && topup.Some? {
        ReviewMoney(db, c, None, None, "provider_ambiguous_reference");
      } else if order.Some? {
        OrderMoney(db, c, order.value, terms);
      } else if topup.Some? {
        TopupMoney(db, c, topup.value, terms.now);
      } else {
        ReviewMoney(db, c, None, None, "unknown_reference");
      }
  }

  lemma KnownMoney(db: Db, c: PaymentCommand, p: nat)
    requires p < |db.till.payments|
    requires HandleExisting(db, c, p).Ok?
    ensures SameMoney(db.till, HandleExisting(db, c, p).value.0.till)
  {
  }

  lemma TopupMoney(db: Db, c: PaymentCommand, u: nat, now: int)
    requires u < |db.wallets.topups|
    requires AcceptForTopup(db, c, u, now).Ok?
    ensures OnePayment(db.till, AcceptForTopup(db, c, u, now).value.0.till, c.provider)
  {
  }

  lemma WalletMoney(db: Db, user: nat, o: nat, key: string, update: nat, terms: Terms)
    requires PayOrder(db, user, o, key, update, terms).Ok?
    ensures MoneyRecorded(db.till, PayOrder(db, user, o, key, update, terms).value.0.till)
  {
    var order := db.sales.orders[o];
    if FindPayment(db.till, WALLET, order.environment, WalletTransaction(o)).None? {
      var (ensured, account) := EnsureAccount(db.wallets, user);
      FromWalletMoney(db.(wallets := ensured), account, user, o, key, update, terms);
    }
  }

  lemma FromWalletMoney(db: Db, account: nat, user: nat, o: nat, key: string, update: nat, terms: Terms)
    requires o < |db.sales.orders| && account < |db.wallets.accounts|
    requires PayFrom(db, account, user, o, key, update, terms).Ok?
    ensures PayFrom(db, account, user, o, key, update, terms).value.0.till ==
            db.till.(payments := db.till.payments + [WalletPaymentRow(db.sales.orders[o], user, o)],
                     allocations := db.till.allocations
                         + [Allocation(|db.till.payments|, OrderTarget(o), db.sales.orders[o].total)])
  {
    var order := db.sales.orders[o];
    var claimed := ExactSet(db.stock, order.product, order.quantity, terms.offered);
    var till := InsertPayment(db.till, WalletPaymentRow(order, user, o)).value;
    var s2, wallets, handed := PaidFromAccount(db, account, user, o, key, update, terms);
    FulfilMoney(db.(sales := s2, till := till, wallets := wallets), o, |db.till.payments|, claimed, terms);
  }

  lemma OnePaymentRecords(t: Till, t': Till, provider: string)
    requires OnePayment(t, t', provider)
    ensures MoneyRecorded(t, t')
  {
  }

  lemma PayingMoney(db: Db, a: PaymentAction)
    requires ExecPayment(db, a).Ok?
    ensures MoneyRecorded(db.till, ExecPayment(db, a).value.till)
  {
    match a
    case Accept(c, terms) =>
      AcceptMoney(db, c, terms);
      OnePaymentRecords(db.till, ExecPayment(db, a).value.till, c.provider);
    case AcceptBy(ticket, update, c, terms) => ManualMoney(db, ticket, update, c, terms);
    case PayFromWallet(user, o, key, update, terms) => WalletMoney(db, user, o, key, update, terms);
    case _ =>
  }

  lemma ManualMoney(db: Db, ticket: GateTable.Ticket, update: nat, c: PaymentCommand, terms: Terms)
    requires ManualAccept(db, ticket, update, c, terms).Ok?
    ensures MoneyRecorded(db.till, ManualAccept(db, ticket, update, c, terms).value.0.till)
  {
    AcceptMoney(db, ByHand(c), terms);
    OnePaymentRecords(db.till, AcceptPayment(db, ByHand(c), terms).value.0.till, "manual");
  }

  lemma ShippingMoney(db: Db, a: DeliveryAction)
    requires ExecDelivery(db, a).Ok?
    ensures SameMoney(db.till, ExecDelivery(db, a).value.till)
  {
    if a.BackfillBatch? {
      BackfillItems(db, a.picked, a.now, a.maxAttempts);
    }
  }

  lemma OrderingMoney(db: Db, a: OrderAction)
    requires ExecOrder(db, a).Ok?
    ensures ExecOrder(db, a).value.till == db.till
  {
  }

  lemma StepRecordsMoney(db: Db, a: Action)
    ensures MoneyRecorded(db.till, Step(db, a).till)
  {
    if Exec(db, a).Ok? {
      match a
      case Setup(_) =>
      case AtGate(_) =>
      case Ordering(action) => OrderingMoney(db, action);
      case Paying(action) => PayingMoney(db, action);
      case Shipping(action) => ShippingMoney(db, action);
    }
  }

  /** A payment that was not allocated when it was recorded never will be, and an
      allocated one keeps its one allocation: nothing rewrites recorded money. */
  lemma {:induction false} AllocationIsFinal(db: Db, actions: seq<Action>, p: nat)
    requires p < |db.till.payments|
    ensures db.till.payments <= Run(db, actions).till.payments
    ensures db.till.allocations <= Run(db, actions).till.allocations
    ensures Allocated(Run(db, actions).till, p) <==> Allocated(db.till, p)
    decreases |actions|
  {
    if actions == [] {
    } else {
      StepRecordsMoney(db, actions[0]);
      AllocationIsFinal(Step(db, actions[0]), actions[1..], p);
      var t' := Step(db, actions[0]).till;
      if Allocated(db.till, p) {
        var a :| 0 <= a < |db.till.allocations| && db.till.allocations[a].payment == p;
        assert t'.allocations[a].payment == p;
      }
    }
  }
}
