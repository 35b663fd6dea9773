/** What wallets do, said on the rows: a posting, an adjustment by an administrator, and
    paying for an order. */
module WalletOutcomes {
  import opened Results
  import opened Domain
  import opened Agreement
  import opened Database
  import opened GateOutcomes
  import opened PaymentAcceptance
  import opened PurchaseOutcomes
  import opened SalesTable
  import opened StockTable
  import opened TillTable
  import opened WalletStore
  import opened WalletTable
  import GateTable
  import Text

  // ---------- accounts and postings ----------

  /** The account of the user, or the position a new one gets. */
  ghost predicate AccountOf(w: Wallets, user: nat, account: nat) {
    if exists a :: 0 <= a < |w.accounts| && w.accounts[a].user == user then
      account < |w.accounts| && w.accounts[account].user == user
    else account == |w.accounts|
  }

  /** The wallets with the account of the user, opened empty and active if need be. */
  function WithAccount(w: Wallets, user: nat, account: nat): Wallets {
    if account < |w.accounts| then w else w.(accounts := w.accounts + [Account(user, 0, ActiveAccount, 1)])
  }

  lemma AccountIsExact(w: Wallets, user: nat)
    ensures var (ensured, account) := EnsureAccount(w, user);
            AccountOf(w, user, account) && ensured == WithAccount(w, user, account)
  {
    var found := FindAccount(w, user);
    if found.Some? {
      assert w.accounts[found.value].user == user;
    }
  }

  predicate MayAsk(db: Db, user: nat) {
    user < |db.sales.users| && db.sales.users[user].active
  }

  /** The account takes the amount: it is active, the balance stays in range, and no
      entry of it has the key. */
  predicate Takes(w: Wallets, account: nat, amount: int, key: string) {
    && account < |w.accounts| && w.accounts[account].status == ActiveAccount
    && 0 <= w.accounts[account].balance + amount <= 0x7FFF_FFFF_FFFF_FFFF
    && forall e :: 0 <= e < |w.ledger| ==> !(w.ledger[e].account == account && w.ledger[e].key == key)
  }

  /** One balance moves by an amount, and one entry records it. */
  function Posted(w: Wallets, account: nat, source: Source, amount: int, key: string): Wallets
    requires account < |w.accounts|
  {
    var row := w.accounts[account];
    Wallets(w.accounts[account := row.(balance := row.balance + amount, version := row.version + 1)],
            w.ledger + [Entry(account, source, amount, row.balance + amount, key)], w.topups)
  }

  lemma PostingIsExact(w: Wallets, account: nat, source: Source, amount: int, key: string)
    ensures var right := match source
                         case FromTopup(_) => amount > 0
                         case ForOrder(_) => amount < 0
                         case ByAdmin(_) => amount != 0;
            && (Post(w, account, source, amount, key).Ok? <==> Takes(w, account, amount, key) && right)
            && (Post(w, account, source, amount, key).Ok? ==>
                  Post(w, account, source, amount, key).value == Posted(w, account, source, amount, key))
  {
    if account < |w.accounts| {
      var row := w.accounts[account];
      var w1 := w.(accounts :=
                   w.accounts[account := row.(balance := row.balance + amount, version := row.version + 1)]);
      SameLedger(w, w1, account, key);
    }
  }

  lemma SameLedger(w: Wallets, w': Wallets, account: nat, key: string)
    requires w'.ledger == w.ledger
    ensures FindEntry(w', account, key).None? <==>
              forall e :: 0 <= e < |w.ledger| ==> !(w.ledger[e].account == account && w.ledger[e].key == key)
  {
    if FindEntry(w', account, key).Some? {
      var e := FindEntry(w', account, key).value;
      assert w.ledger[e].account == account && w.ledger[e].key == key;
    }
  }

  // ---------- an adjustment ----------

  /** In a sound state a balance is adjusted if and only if the administrator is entitled
      to, the update is being processed, the user exists, the amount is not zero and the
      account takes it; then one entry names the administrator, the session is over and
      the update completed. */
  lemma AdjustmentIsExact(db: Db, ticket: GateTable.Ticket, update: nat, user: nat, account: nat, amount: int,
                          key: string, now: int)
    requires WalletsOk(db.wallets) && AccountOf(db.wallets, user, account)
    ensures var r := AdjustWallet(db, ticket, update, user, amount, key, now);
            var held := WithAccount(db.wallets, user, account);
            && (r.Ok? <==>
                && Entitled(db.gate, ticket, "wallet.adjustment", now) && BeingProcessed(db.gate, update)
                && user < |db.sales.users| && amount != 0 && Takes(held, account, amount, key))
            && (r.Ok? ==> r.value == db.(
                  wallets := Posted(held, account, ByAdmin(ticket.admin), amount, key),
                  gate := Used(db.gate, ticket, "completed", now, update)))
  {
    UseIsExact(db.gate, ticket, "wallet.adjustment", update, now);
    AccountIsExact(db.wallets, user);
    OneAccount(db.wallets, user, account);
    PostingIsExact(WithAccount(db.wallets, user, account), account, ByAdmin(ticket.admin), amount, key);
  }

  lemma OneAccount(w: Wallets, user: nat, account: nat)
    requires WalletsOk(w) && AccountOf(w, user, account)
    ensures EnsureAccount(w, user) == (WithAccount(w, user, account), account)
  {
    AccountIsExact(w, user);
  }

  // ---------- paying for an order ----------

  /** The customer owns the order and is not blocked. */
  predicate Owns(db: Db, user: nat, o: nat) {
    MayAsk(db, user) && o < |db.sales.orders| && db.sales.orders[o].user == user
  }

  /** The payment is the wallet's payment for the order. */
  predicate ForWallet(db: Db, o: nat, p: nat)
    requires o < |db.sales.orders|
  {
    && p < |db.till.payments|
    && db.till.payments[p].provider == "wallet"
    && db.till.payments[p].environment == db.sales.orders[o].environment
    && db.till.payments[p].transaction == "wallet-order-" + Text.Decimal(o)
  }

  /** The order can be paid now, and the items are there. */
  predicate Payable(db: Db, o: nat, terms: Terms)
    requires o < |db.sales.orders|
  {
    var order := db.sales.orders[o];
    && order.status == PendingPayment && order.expiresAt > terms.now && order.total > 0 && terms.maxAttempts > 0
    && FullOffer(db.stock, order.product, order.quantity, terms.offered)
  }

  function WalletRow(db: Db, user: nat, o: nat): Payment
    requires o < |db.sales.orders|
  {
    var order := db.sales.orders[o];
    Payment(Some(o), user, "wallet", order.environment, "wallet-order-" + Text.Decimal(o), order.reference,
            order.total, true)
  }

  /** The order is bought, the balance fell by exactly its total, and the answer carries
      the new balance and the quantity. */
  ghost predicate PaidByWallet(db: Db, result: (Db, WalletPayment), user: nat, o: nat, account: nat, key: string,
                               update: nat, terms: Terms)
    requires o < |db.sales.orders| && account < |WithAccount(db.wallets, user, account).accounts|
  {
    var order := db.sales.orders[o];
    var held := WithAccount(db.wallets, user, account);
    && result.1 == WalletPayment(false, held.accounts[account].balance - order.total, |terms.offered|)
    && Bought(db, result.0, o, WalletRow(db, user, o), terms, "wallet_payment_accepted", "wallet_inventory_claimed")
    && result.0.till.events == db.till.events
    && result.0.wallets == Posted(held, account, ForOrder(o), -order.total, key)
    && result.0.gate == db.gate.(receipts := db.gate.receipts[update := GateTable.ReceiptCompleted])
  }

  /** In a sound state a first payment from the wallet commits if and only if the active
      owner pays a pending order in time, from a balance that covers it, with a full
      offer, a new key and an update that is being processed. */
  lemma WalletPaymentIsExact(db: Db, user: nat, o: nat, account: nat, key: string, update: nat, terms: Terms)
    requires Inv(db) && AccountOf(db.wallets, user, account)
    ensures var r := PayOrder(db, user, o, key, update, terms);
            var held := WithAccount(db.wallets, user, account);
            && (r.Ok? && !r.value.1.duplicate <==>
                && Owns(db, user, o) && (forall p :: 0 <= p < |db.till.payments| ==> !ForWallet(db, o, p))
                && Payable(db, o, terms) && Takes(held, account, -db.sales.orders[o].total, key)
                && BeingProcessed(db.gate, update))
            && (r.Ok? && !r.value.1.duplicate ==>
                  PaidByWallet(db, r.value, user, o, account, key, update, terms))
  {
    assert Holds(WalletsSound, db);
    if Owns(db, user, o) && FindPayment(db.till, WALLET, db.sales.orders[o].environment, WalletTransaction(o)).None? {
      OneAccount(db.wallets, user, account);
      assert forall p :: 0 <= p < |db.till.payments| ==> !ForWallet(db, o, p);
      var order := db.sales.orders[o];
      if order.status == PendingPayment && order.expiresAt > terms.now {
        DebitIsExact(db, user, o, account, key, update, terms);
      }
    } else if Owns(db, user, o) {
      assert ForWallet(db, o, FindPayment(db.till, WALLET, db.sales.orders[o].environment, WalletTransaction(o)).value);
    }
  }

  lemma DebitIsExact(db: Db, user: nat, o: nat, account: nat, key: string, update: nat, terms: Terms)
    requires Inv(db) && Owns(db, user, o)
    requires forall p :: 0 <= p < |db.till.payments| ==> !ForWallet(db, o, p)
    requires db.sales.orders[o].status == PendingPayment && db.sales.orders[o].expiresAt > terms.now
    requires EnsureAccount(db.wallets, user) == (WithAccount(db.wallets, user, account), account)
    ensures var r := PayNow(db, user, o, key, update, terms);
            var held := WithAccount(db.wallets, user, account);
            && (r.Ok? <==>
                && Payable(db, o, terms) && Takes(held, account, -db.sales.orders[o].total, key)
                && BeingProcessed(db.gate, update))
            && (r.Ok? ==> PaidByWallet(db, r.value, user, o, account, key, update, terms))
  {
    var held := WithAccount(db.wallets, user, account);
    if PayNow(db, user, o, key, update, terms).Ok? {
      DebitNeedsAll(db, user, o, account, key, update, terms);
    }
    if Payable(db, o, terms) && Takes(held, account, -db.sales.orders[o].total, key)
        && BeingProcessed(db.gate, update) {
      DebitWrites(db, user, o, account, key, update, terms);
    }
  }

  lemma DebitNeedsAll(db: Db, user: nat, o: nat, account: nat, key: string, update: nat, terms: Terms)
    requires Inv(db) && Owns(db, user, o)
    requires db.sales.orders[o].status == PendingPayment && db.sales.orders[o].expiresAt > terms.now
    requires EnsureAccount(db.wallets, user) == (WithAccount(db.wallets, user, account), account)
    requires PayNow(db, user, o, key, update, terms).Ok?
    ensures Payable(db, o, terms) && BeingProcessed(db.gate, update)
    ensures Takes(WithAccount(db.wallets, user, account), account, -db.sales.orders[o].total, key)
  {
    var order := db.sales.orders[o];
    var held := WithAccount(db.wallets, user, account);
    assert Holds(StockSound, db);
    PostingIsExact(held, account, ForOrder(o), -order.total, key);
    var s2, w, handed := PaidFromAccount(db.(wallets := held), account, user, o, key, update, terms);
    OfferIsExact(db.stock, order.product, order.quantity, terms.offered);
  }

  lemma DebitWrites(db: Db, user: nat, o: nat, account: nat, key: string, update: nat, terms: Terms)
    requires Inv(db) && Owns(db, user, o)
    requires forall p :: 0 <= p < |db.till.payments| ==> !ForWallet(db, o, p)
    requires EnsureAccount(db.wallets, user) == (WithAccount(db.wallets, user, account), account)
    requires Payable(db, o, terms) && BeingProcessed(db.gate, update)
    requires Takes(WithAccount(db.wallets, user, account), account, -db.sales.orders[o].total, key)
    ensures var r := PayNow(db, user, o, key, update, terms);
            r.Ok? && PaidByWallet(db, r.value, user, o, account, key, update, terms)
  {
    assert ExactSet(db.stock, db.sales.orders[o].product, db.sales.orders[o].quantity, terms.offered) ==
           terms.offered by {
      assert Holds(StockSound, db);
      OfferIsExact(db.stock, db.sales.orders[o].product, db.sales.orders[o].quantity, terms.offered);
    }
    var till, w := DebitSettles(db, user, o, account, key, update, terms);
    SettlementWrites(db, till, w, user, o, update, terms);
  }

  lemma DebitSettles(db: Db, user: nat, o: nat, account: nat, key: string, update: nat, terms: Terms)
    returns (till: Till, w: Wallets)
    requires o < |db.sales.orders| && db.sales.orders[o].total > 0
    requires forall p :: 0 <= p < |db.till.payments| ==> !ForWallet(db, o, p)
    requires EnsureAccount(db.wallets, user) == (WithAccount(db.wallets, user, account), account)
    requires Takes(WithAccount(db.wallets, user, account), account, -db.sales.orders[o].total, key)
    requires var order := db.sales.orders[o];
             && ExactSet(db.stock, order.product, order.quantity, terms.offered) == terms.offered
             && |terms.offered| == order.quantity
    ensures till == db.till.(payments := db.till.payments + [WalletRow(db, user, o)])
    ensures w == Posted(WithAccount(db.wallets, user, account), account, ForOrder(o), -db.sales.orders[o].total, key)
    ensures PayNow(db, user, o, key, update, terms) ==
            var handed := Settle(db.(till := till, wallets := w), o, |db.till.payments|, terms.offered, update, terms);
            if handed.Ok? then
              Ok((handed.value, WalletPayment(false, w.accounts[account].balance, |terms.offered|)))
            else Err(handed.error)
  {
    var held := WithAccount(db.wallets, user, account);
    till := db.till.(payments := db.till.payments + [WalletRow(db, user, o)]);
    w := Posted(held, account, ForOrder(o), -db.sales.orders[o].total, key);
    WalletRowWrites(db, user, o);
    PostingIsExact(held, account, ForOrder(o), -db.sales.orders[o].total, key);
    StatementsCompose(db.(wallets := held), account, user, o, key, update, terms, till, w);
  }

  /** A payment whose statements all succeed commits with what the last one leaves. */
  lemma StatementsCompose(db: Db, account: nat, user: nat, o: nat, key: string, update: nat, terms: Terms, till: Till,
                          w: Wallets)
    requires o < |db.sales.orders| && account < |db.wallets.accounts|
    requires db.wallets.accounts[account].balance >= db.sales.orders[o].total
    requires var order := db.sales.orders[o];
             && ExactSet(db.stock, order.product, order.quantity, terms.offered) == terms.offered
             && |terms.offered| == order.quantity
             && InsertPayment(db.till, WalletPaymentRow(order, user, o)) == Ok(till)
             && Post(db.wallets, account, ForOrder(o), -order.total, key) == Ok(w)
             && account < |w.accounts|
    ensures PayFrom(db, account, user, o, key, update, terms) ==
            var handed := Settle(db.(till := till, wallets := w), o, |db.till.payments|, terms.offered, update, terms);
            if handed.Ok? then
              Ok((handed.value, WalletPayment(false, w.accounts[account].balance, |terms.offered|)))
            else Err(handed.error)
  {
  }

  lemma WalletRowWrites(db: Db, user: nat, o: nat)
    requires o < |db.sales.orders| && db.sales.orders[o].total > 0
    requires forall p :: 0 <= p < |db.till.payments| ==> !ForWallet(db, o, p)
    ensures WalletPaymentRow(db.sales.orders[o], user, o) == WalletRow(db, user, o)
    ensures InsertPayment(db.till, WalletRow(db, user, o)) ==
            Ok(db.till.(payments := db.till.payments + [WalletRow(db, user, o)]))
  {
    forall p | 0 <= p < |db.till.payments|
      ensures !SameTransaction(db.till.payments[p], WALLET, db.sales.orders[o].environment, WalletTransaction(o))
    {
      assert !ForWallet(db, o, p);
    }
    PaymentWrites(db.till, WalletRow(db, user, o));
  }

  lemma SettlementWrites(db: Db, till: Till, w: Wallets, user: nat, o: nat, update: nat, terms: Terms)
    requires Inv(db) && o < |db.sales.orders| && Payable(db, o, terms) && BeingProcessed(db.gate, update)
    requires till == db.till.(payments := db.till.payments + [WalletRow(db, user, o)])
    ensures var r := Settle(db.(till := till, wallets := w), o, |db.till.payments|, terms.offered, update, terms);
            && r.Ok?
            && Bought(db, r.value, o, WalletRow(db, user, o), terms, "wallet_payment_accepted",
                      "wallet_inventory_claimed")
            && r.value.till.events == db.till.events && r.value.wallets == w
            && r.value.gate == db.gate.(receipts := db.gate.receipts[update := GateTable.ReceiptCompleted])
  {
    PassThroughWrites(db.sales, o, "wallet_payment_accepted", "wallet_inventory_claimed");
    var s2 := PassThroughPaid(db.sales, o, "wallet_payment_accepted", "wallet_inventory_claimed").value;
    FulfilmentIsExact(db, s2, till, w, o, terms, "wallet_payment_accepted", "wallet_inventory_claimed",
                      WalletRow(db, user, o));
  }

  // ---------- why it is not paid ----------

  /** Why a first payment from the wallet is refused: the first thing that is wrong. */
  lemma WalletRefusalsAreExact(db: Db, user: nat, o: nat, account: nat, key: string, update: nat, terms: Terms)
    requires Inv(db) && AccountOf(db.wallets, user, account)
    requires o < |db.sales.orders| ==> forall p :: 0 <= p < |db.till.payments| ==> !ForWallet(db, o, p)
    ensures var r := PayOrder(db, user, o, key, update, terms);
            var balance := WithAccount(db.wallets, user, account).accounts[account].balance;
            if user >= |db.sales.users| then r == Err(Unauthorized)
            else if !db.sales.users[user].active then r == Err(UserBlocked)
            else if o >= |db.sales.orders| || db.sales.orders[o].user != user then r == Err(OrderNotFound)
            else var order := db.sales.orders[o];
              if order.status != PendingPayment then r == Err(OrderAlreadyPaid)
              else if order.expiresAt <= terms.now then r == Err(OrderExpired)
              else if balance < order.total then r == Err(InsufficientWalletBalance)
              else !FullOffer(db.stock, order.product, order.quantity, terms.offered) ==>
                     r == Err(InsufficientInventory)
  {
    assert Holds(WalletsSound, db) && Holds(StockSound, db) && Holds(SalesSound, db);
    OneAccount(db.wallets, user, account);
    if Owns(db, user, o) {
      var order := db.sales.orders[o];
      assert OrderOk(db.sales, o);
      OfferIsExact(db.stock, order.product, order.quantity, terms.offered);
      assert FindPayment(db.till, WALLET, order.environment, WalletTransaction(o)).None? by {
        var p := FindPayment(db.till, WALLET, order.environment, WalletTransaction(o));
        assert p.Some? ==> ForWallet(db, o, p.value);
      }
    }
  }

  /** Paying an order again from the wallet moves nothing: if the payment went to the
      order, it answers the balance, and otherwise it is a conflict. */
  lemma RepetitionIsExact(db: Db, user: nat, o: nat, account: nat, p: nat, key: string, update: nat, terms: Terms)
    requires Inv(db) && AccountOf(db.wallets, user, account)
    requires Owns(db, user, o) && ForWallet(db, o, p)
    ensures var r := PayOrder(db, user, o, key, update, terms);
            var held := WithAccount(db.wallets, user, account);
            if Allocation(p, OrderTarget(o), db.till.payments[p].amount) !in db.till.allocations then
              r == Err(PaymentTransactionConflict)
            else if !BeingProcessed(db.gate, update) then r == Err(DuplicateUpdate)
            else r == Ok((db.(wallets := held,
                              gate := db.gate.(receipts := db.gate.receipts[update := GateTable.ReceiptCompleted])),
                          WalletPayment(true, held.accounts[account].balance, 0)))
  {
    assert Holds(WalletsSound, db) && Holds(TillSound, db);
    OneAccount(db.wallets, user, account);
    var order := db.sales.orders[o];
    assert SameTransaction(db.till.payments[p], WALLET, order.environment, WalletTransaction(o));
    var found := FindPayment(db.till, WALLET, order.environment, WalletTransaction(o));
    assert found == Some(p);
    var allocation := FindAllocation(db.till, p);
    if allocation.Some? {
      assert AllocationOk(db.till, allocation.value);
    }
  }
}
