/** Conservation of money: after any run all balances together are what top-up
    payments brought, plus adjustments, minus what wallet payments took. */
module Conservation {
  import opened Results
  import opened Agreement
  import opened Database
  import opened Delivery
  import GateTable
  import opened PaymentAcceptance
  import opened PaymentAdmin
  import opened PaymentInvariant
  import opened Progress
  import opened SalesTable
  import opened Shop
  import opened ShopInvariant
  import opened StockTable
  import opened TillTable
  import opened WalletStore
  import opened WalletTable

  /** The allocated amounts of payments made from a wallet. */
  function PaidFromWallets(payments: seq<Payment>, allocations: seq<Allocation>): int {
    if allocations == [] then 0
    else
      var last := allocations[|allocations| - 1];
      PaidFromWallets(payments, allocations[..|allocations| - 1])
      + if last.payment < |payments| && payments[last.payment].provider == WALLET then last.amount else 0
  }

  lemma {:induction false} OlderPaymentsDecide(payments: seq<Payment>, more: seq<Payment>, allocations: seq<Allocation>)
    requires payments <= more
    requires forall a :: 0 <= a < |allocations| ==> allocations[a].payment < |payments|
    ensures PaidFromWallets(more, allocations) == PaidFromWallets(payments, allocations)
  {
    if allocations == [] {
    } else {
      OlderPaymentsDecide(payments, more, allocations[..|allocations| - 1]);
    }
  }

  /** Order debits mirror wallet payments. */
  ghost predicate Mirrored(db: Db) {
    SumOfKind(db.wallets.ledger, Orders) == -PaidFromWallets(db.till.payments, db.till.allocations)
  }

  /** Provider names come from the configured adapters; "wallet" is not one. */
  predicate Configured(a: Action) {
    a.Paying? && a.payment.Accept? ==> a.payment.c.provider != WALLET
  }

  lemma AllocationsAreOld(db: Db)
    requires Inv(db)
    ensures forall a :: 0 <= a < |db.till.allocations| ==> db.till.allocations[a].payment < |db.till.payments|
  {
    assert Holds(TillSound, db);
    forall a | 0 <= a < |db.till.allocations|
      ensures db.till.allocations[a].payment < |db.till.payments|
    {
      assert AllocationOk(db.till, a);
    }
  }

  /** One payment of a given provider, with or without its allocation. */
  lemma OneMorePayment(db: Db, payment: Payment, t': Till)
    requires Inv(db)
    requires t'.payments == db.till.payments + [payment]
    requires t'.allocations == db.till.allocations
             || (|t'.allocations| == |db.till.allocations| + 1 && db.till.allocations <= t'.allocations
                 && t'.allocations[|db.till.allocations|].payment == |db.till.payments|)
    ensures PaidFromWallets(t'.payments, t'.allocations) ==
            PaidFromWallets(db.till.payments, db.till.allocations)
            + if payment.provider == WALLET && t'.allocations != db.till.allocations then
              t'.allocations[|db.till.allocations|].amount else 0
  {
    AllocationsAreOld(db);
    OlderPaymentsDecide(db.till.payments, t'.payments, db.till.allocations);
    if t'.allocations != db.till.allocations {
      assert t'.allocations[..|db.till.allocations|] == db.till.allocations;
    }
  }

  /** A step that allocates at most one payment, not made from a wallet, and
      writes no order entry. */
  ghost predicate ForeignStep(db: Db, db': Db, provider: string) {
    && SumOfKind(db'.wallets.ledger, Orders) == SumOfKind(db.wallets.ledger, Orders)
    && OnePayment(db.till, db'.till, provider)
  }

  lemma ForeignStepMirrors(db: Db, db': Db, provider: string)
    requires Inv(db) && Mirrored(db)
    requires ForeignStep(db, db', provider) && provider != WALLET
    ensures Mirrored(db')
  {
    if !SameMoney(db.till, db'.till) {
      OneMorePayment(db, db'.till.payments[|db.till.payments|], db'.till);
      assert db'.till.payments == db.till.payments + [db'.till.payments[|db.till.payments|]];
    }
  }

  lemma OrderWallets(db: Db, c: PaymentCommand, o: nat, terms: Terms)
    requires o < |db.sales.orders|
    requires AcceptForOrder(db, c, o, terms).Ok?
    ensures AcceptForOrder(db, c, o, terms).value.0.wallets == db.wallets
  {
    var order := db.sales.orders[o];
    var claimed := ExactSet(db.stock, order.product, order.quantity, terms.offered);
    if OrderProblem(order, c, terms.now) == "" && |claimed| == order.quantity {
      var till := InsertPayment(db.till, PaymentFor(c, Some(o), order.user, true)).value;
      var s2, handed := AcceptedForOrder(db, c, o, terms);
      FulfilWallets(db.(sales := s2, till := till), o, |db.till.payments|, claimed, terms);
    }
  }

  lemma TopupEntries(db: Db, c: PaymentCommand, u: nat, now: int)
    requires u < |db.wallets.topups|
    requires AcceptForTopup(db, c, u, now).Ok?
    ensures SumOfKind(AcceptForTopup(db, c, u, now).value.0.wallets.ledger, Orders) ==
            SumOfKind(db.wallets.ledger, Orders)
  {
    var topup := db.wallets.topups[u];
    if TopupProblem(topup, c, now) == "" {
      CreditedTopupShape(db, c, u, now);
      var w' := AcceptForTopup(db, c, u, now).value.0.wallets;
      SumGrows(db.wallets.ledger, w'.ledger[|db.wallets.ledger|], topup.account, Orders);
    }
  }

  lemma DecideIsForeign(db: Db, c: PaymentCommand, terms: Terms)
    requires Decide(db, c, terms).Ok?
    ensures ForeignStep(db, Decide(db, c, terms).value.0, c.provider)
  {
    DecideMoney(db, c, terms);
    if FindPayment(db.till, c.provider, c.environment, c.transaction).None? {
      var order := FindByReference(db.sales, c.reference);
      var topup := FindTopupByReference(db.wallets, c.reference);
      if order.Some? && topup.None? {
        OrderWallets(db, c, order.value, terms);
      } else if order.None? && topup.Some? {
        TopupEntries(db, c, topup.value, terms.now);
      }
    }
  }

  lemma AcceptIsForeign(db: Db, c: PaymentCommand, terms: Terms)
    requires AcceptPayment(db, c, terms).Ok?
    ensures ForeignStep(db, AcceptPayment(db, c, terms).value.0, c.provider)
  {
    if Decide(db, c, terms).Ok? {
      DecideIsForeign(db, c, terms);
    }
  }

  /** A wallet payment debits exactly what it allocates. */
  lemma WalletPaymentMirrors(db: Db, account: nat, user: nat, o: nat, key: string, update: nat, terms: Terms)
    requires Inv(db) && Mirrored(db)
    requires o < |db.sales.orders| && account < |db.wallets.accounts|
    requires PayFrom(db, account, user, o, key, update, terms).Ok?
    ensures Mirrored(PayFrom(db, account, user, o, key, update, terms).value.0)
  {
    var db' := PayFrom(db, account, user, o, key, update, terms).value.0;
    FromWalletMoney(db, account, user, o, key, update, terms);
    WalletLedger(db, account, user, o, key, update, terms);
    OneMorePayment(db, WalletPaymentRow(db.sales.orders[o], user, o), db'.till);
  }

  lemma WalletLedger(db: Db, account: nat, user: nat, o: nat, key: string, update: nat, terms: Terms)
    requires o < |db.sales.orders| && account < |db.wallets.accounts|
    requires PayFrom(db, account, user, o, key, update, terms).Ok?
    ensures SumOfKind(PayFrom(db, account, user, o, key, update, terms).value.0.wallets.ledger, Orders) ==
            SumOfKind(db.wallets.ledger, Orders) - db.sales.orders[o].total
  {
    var order := db.sales.orders[o];
    var claimed := ExactSet(db.stock, order.product, order.quantity, terms.offered);
    var till := InsertPayment(db.till, WalletPaymentRow(order, user, o)).value;
    var s2, wallets, handed := PaidFromAccount(db, account, user, o, key, update, terms);
    FulfilWallets(db.(sales := s2, till := till, wallets := wallets), o, |db.till.payments|, claimed, terms);
    SumGrows(db.wallets.ledger, wallets.ledger[|db.wallets.ledger|], account, Orders);
  }

  lemma FulfilWallets(db: Db, o: nat, payment: nat, claimed: set<nat>, terms: Terms)
    requires o < |db.sales.orders|
    requires Fulfil(db, o, payment, claimed, terms).Ok?
    ensures Fulfil(db, o, payment, claimed, terms).value.wallets == db.wallets
  {
  }

  lemma PayOrderMirrors(db: Db, user: nat, o: nat, key: string, update: nat, terms: Terms)
    requires Inv(db) && Mirrored(db)
    requires PayOrder(db, user, o, key, update, terms).Ok?
    ensures Mirrored(PayOrder(db, user, o, key, update, terms).value.0)
  {
    if FindPayment(db.till, WALLET, db.sales.orders[o].environment, WalletTransaction(o)).None? {
      EnsureKeeps(db, user);
      var (ensured, account) := EnsureAccount(db.wallets, user);
      WalletPaymentMirrors(db.(wallets := ensured), account, user, o, key, update, terms);
    }
  }

  lemma AdjustMirrors(db: Db, ticket: GateTable.Ticket, update: nat, user: nat, amount: int, key: string, now: int)
    requires AdjustWallet(db, ticket, update, user, amount, key, now).Ok?
    requires Mirrored(db)
    ensures Mirrored(AdjustWallet(db, ticket, update, user, amount, key, now).value)
  {
    var (ensured, account) := EnsureAccount(db.wallets, user);
    AdjustmentIsNoOrder(ensured, account, ticket.admin, amount, key);
  }

  lemma AdjustmentIsNoOrder(w: Wallets, account: nat, admin: nat, amount: int, key: string)
    requires Post(w, account, ByAdmin(admin), amount, key).Ok?
    ensures SumOfKind(Post(w, account, ByAdmin(admin), amount, key).value.ledger, Orders) == SumOfKind(w.ledger, Orders)
  {
    var w' := Post(w, account, ByAdmin(admin), amount, key).value;
    SumGrows(w.ledger, w'.ledger[|w.ledger|], account, Orders);
  }

  /** Events, reviews, new accounts and new intents move no money. */
  lemma PaperworkMirrors(db: Db, a: PaymentAction)
    requires Mirrored(db)
    requires !a.Accept? && !a.AcceptBy? && !a.PayFromWallet? && !a.AdjustBy?
    requires ExecPayment(db, a).Ok?
    ensures Mirrored(ExecPayment(db, a).value)
  {
    var db' := ExecPayment(db, a).value;
    assert SameMoney(db.till, db'.till);
    assert db'.wallets.ledger == db.wallets.ledger;
  }

  lemma PayingMirrors(db: Db, a: PaymentAction)
    requires Inv(db) && Mirrored(db)
    requires Configured(Paying(a))
    requires ExecPayment(db, a).Ok?
    ensures Mirrored(ExecPayment(db, a).value)
  {
    match a
    case Accept(c, terms) =>
      AcceptIsForeign(db, c, terms);
      ForeignStepMirrors(db, ExecPayment(db, a).value, c.provider);
    case AcceptBy(ticket, update, c, terms) =>
      AcceptIsForeign(db, ByHand(c), terms);
      assert "manual"[0] != WALLET[0];
      ForeignStepMirrors(db, ExecPayment(db, a).value, "manual");
    case PayFromWallet(user, o, key, update, terms) => PayOrderMirrors(db, user, o, key, update, terms);
    case AdjustBy(ticket, update, user, amount, key, now) => AdjustMirrors(db, ticket, update, user, amount, key, now);
    case _ => PaperworkMirrors(db, a);
  }

  lemma {:induction false} BackfillWallets(db: Db, picked: seq<nat>, now: int, maxAttempts: nat)
    requires Backfill(db, picked, now, maxAttempts).Ok?
    ensures Backfill(db, picked, now, maxAttempts).value.0.wallets == db.wallets
    decreases |picked|
  {
    if picked == [] {
    } else {
      if Backlogged(db, picked[0]) {
        BackfillWallets(Handoff(db, picked[0], now, maxAttempts).value.0, picked[1..], now, maxAttempts);
      } else {
        BackfillWallets(db, picked[1..], now, maxAttempts);
      }
    }
  }

  lemma ShippingWallets(db: Db, a: DeliveryAction)
    requires ExecDelivery(db, a).Ok?
    ensures ExecDelivery(db, a).value.wallets == db.wallets
  {
    if a.BackfillBatch? {
      BackfillWallets(db, a.picked, a.now, a.maxAttempts);
    }
  }

  lemma OrderingWallets(db: Db, a: OrderAction)
    requires ExecOrder(db, a).Ok?
    ensures ExecOrder(db, a).value.wallets == db.wallets
  {
  }

  lemma StepMirrors(db: Db, a: Action)
    requires Inv(db) && Mirrored(db) && Configured(a)
    ensures Mirrored(Step(db, a))
  {
    if Exec(db, a).Ok? {
      match a
      case Setup(_) =>
      case AtGate(_) =>
      case Ordering(action) =>
        OrderingMoney(db, action);
        OrderingWallets(db, action);
      case Paying(action) => PayingMirrors(db, action);
      case Shipping(action) =>
        ShippingMoney(db, action);
        ShippingWallets(db, action);
    }
  }

  lemma {:induction false} RunMirrors(db: Db, actions: seq<Action>)
    requires Inv(db) && Mirrored(db)
    requires forall k :: 0 <= k < |actions| ==> Configured(actions[k])
    ensures Mirrored(Run(db, actions))
    decreases |actions|
  {
    if actions == [] {
    } else {
      StepMirrors(db, actions[0]);
      StepKeeps(db, actions[0]);
      RunMirrors(Step(db, actions[0]), actions[1..]);
    }
  }

  /** Conservation over any run from the empty tables: total balances are the
      top-up allocations plus the adjustments minus the wallet payments, and each
      balance is the sum of its own entries and not negative. */
  lemma MoneyIsConserved(actions: seq<Action>)
    requires forall k :: 0 <= k < |actions| ==> Configured(actions[k])
    ensures var db := Run(Empty(), actions);
            && TotalBalance(db.wallets.accounts) ==
                 AllocatedToTopups(db.till.allocations) + SumOfKind(db.wallets.ledger, Adjustments)
                 - PaidFromWallets(db.till.payments, db.till.allocations)
            && (forall a :: 0 <= a < |db.wallets.accounts| ==>
                  db.wallets.accounts[a].balance == SumOf(db.wallets.ledger, a) && db.wallets.accounts[a].balance >= 0)
            && (forall e :: 0 <= e < |db.wallets.ledger| ==>
                  db.wallets.ledger[e].balanceAfter == SumOf(db.wallets.ledger[..e + 1], db.wallets.ledger[e].account))
  {
    EmptyIsSound();
    RunKeeps(Empty(), actions);
    RunMirrors(Empty(), actions);
    SumsConserve(Run(Empty(), actions));
  }

  lemma SumsConserve(db: Db)
    requires Inv(db) && Mirrored(db)
    ensures TotalBalance(db.wallets.accounts) ==
            AllocatedToTopups(db.till.allocations) + SumOfKind(db.wallets.ledger, Adjustments)
            - PaidFromWallets(db.till.payments, db.till.allocations)
    ensures forall a :: 0 <= a < |db.wallets.accounts| ==>
              db.wallets.accounts[a].balance == SumOf(db.wallets.ledger, a) && db.wallets.accounts[a].balance >= 0
    ensures forall e :: 0 <= e < |db.wallets.ledger| ==>
              db.wallets.ledger[e].balanceAfter == SumOf(db.wallets.ledger[..e + 1], db.wallets.ledger[e].account)
  {
    assert Holds(WalletsSound, db) && Holds(TopupsMatch, db);
    forall e | 0 <= e < |db.wallets.ledger|
      ensures db.wallets.ledger[e].account < |db.wallets.accounts|
      ensures db.wallets.ledger[e].balanceAfter == SumOf(db.wallets.ledger[..e + 1], db.wallets.ledger[e].account)
    {
      assert EntryOk(db.wallets, e);
    }
    LedgerConservesMoney(db.wallets);
  }
}
