/** The wallet transactions: paying an order from the balance, adjusting a
    balance, and creating a top-up intent. */
module WalletStore {
  import opened Results
  import opened Domain
  import opened Database
  import opened GateTable
  import opened PaymentAcceptance
  import opened SalesTable
  import opened StockTable
  import opened Text
  import opened TillTable
  import opened WalletTable

  const WALLET := "wallet"
  const WALLET_ADJUSTMENT := "wallet.adjustment"

  function WalletTransaction(order: nat): string {
    "wallet-order-" + Decimal(order)
  }

  /** LockUserByTelegramID and the status check after it. */
  function ActiveUser(s: Sales, user: nat): Check {
    if user >= |s.users| then Fail(Unauthorized) else Need(s.users[user].active, UserBlocked)
  }

  datatype WalletPayment = WalletPayment(duplicate: bool, balance: int, claimed: nat)

  function PayOrder(db: Db, user: nat, o: nat, key: string, update: nat, terms: Terms): Result<(Db, WalletPayment)> {
    var active := ActiveUser(db.sales, user);
    :- active;
    if o >= |db.sales.orders| || db.sales.orders[o].user != user then Err(OrderNotFound)
    else
      var order := db.sales.orders[o];
      match FindPayment(db.till, WALLET, order.environment, WalletTransaction(o))
      case Some(p) => RepeatPayment(db, user, o, p, update)
      case None =>
        :- Need(order.status == PendingPayment, OrderAlreadyPaid);
        :- Need(order.expiresAt > terms.now, OrderExpired);
        PayNow(db, user, o, key, update, terms)
  }

  /** A second payment of the same order from the wallet. */
  function RepeatPayment(db: Db, user: nat, o: nat, p: nat, update: nat): Result<(Db, WalletPayment)> {
    var allocation := FindAllocation(db.till, p);
    if allocation.None? || db.till.allocations[allocation.value].target != OrderTarget(o) then
      Err(PaymentTransactionConflict)
    else
      var (wallets, account) := EnsureAccount(db.wallets, user);
      var gate :- CompleteReceipt(db.gate, update);
      Ok((db.(wallets := wallets, gate := gate), WalletPayment(true, wallets.accounts[account].balance, 0)))
  }

  function PayNow(db: Db, user: nat, o: nat, key: string, update: nat, terms: Terms): Result<(Db, WalletPayment)>
    requires o < |db.sales.orders|
  {
    var (ensured, account) := EnsureAccount(db.wallets, user);
    PayFrom(db.(wallets := ensured), account, user, o, key, update, terms)
  }

  function WalletPaymentRow(order: Order, user: nat, o: nat): Payment {
    Payment(Some(o), user, WALLET, order.environment, WalletTransaction(o), order.reference, order.total, true)
  }

  function PayFrom(db: Db, account: nat, user: nat, o: nat, key: string, update: nat,
                   terms: Terms): Result<(Db, WalletPayment)>
    requires o < |db.sales.orders| && account < |db.wallets.accounts|
  {
    var order := db.sales.orders[o];
    var amount := -order.total;
    :- Need(db.wallets.accounts[account].balance >= order.total, InsufficientWalletBalance);
    var claimed := ExactSet(db.stock, order.product, order.quantity, terms.offered);
    :- Need(|claimed| == order.quantity, InsufficientInventory);
    var till :- InsertPayment(db.till, WalletPaymentRow(order, user, o));
    :- Need(UpdateBalance(db.wallets, account, amount).Ok?, InsufficientWalletBalance);
    var wallets :- Post(db.wallets, account, ForOrder(o), amount, key);
    var handed :- Settle(db.(till := till, wallets := wallets), o, |db.till.payments|, claimed, update, terms);
    Ok((handed, WalletPayment(false, wallets.accounts[account].balance, |claimed|)))
  }

  /** The debit is booked: the order is paid for and its items are handed over. */
  function Settle(db: Db, o: nat, payment: nat, claimed: set<nat>, update: nat, terms: Terms): Result<Db>
    requires o < |db.sales.orders|
  {
    var reserving :- PassThroughPaid(db.sales, o, "wallet_payment_accepted", "wallet_inventory_claimed");
    var handed :- Fulfil(db.(sales := reserving), o, payment, claimed, terms);
    var gate :- CompleteReceipt(db.gate, update);
    Ok(handed.(gate := gate))
  }

  /** A payment from a wallet: the payment and the debit are recorded, the order
      passes through Paid and Reserving, and the fulfilment does the rest. */
  lemma PaidFromAccount(db: Db, account: nat, user: nat, o: nat, key: string, update: nat, terms: Terms)
    returns (s2: Sales, w: Wallets, handed: Db)
    requires o < |db.sales.orders| && account < |db.wallets.accounts|
    requires PayFrom(db, account, user, o, key, update, terms).Ok?
    ensures PassThroughPaid(db.sales, o, "wallet_payment_accepted", "wallet_inventory_claimed") == Ok(s2)
    ensures o < |s2.orders|
    ensures s2.orders[o] == db.sales.orders[o].(status := s2.orders[o].status, version := s2.orders[o].version)
    ensures Post(db.wallets, account, ForOrder(o), -db.sales.orders[o].total, key) == Ok(w)
    ensures var till := InsertPayment(db.till, WalletPaymentRow(db.sales.orders[o], user, o));
            var claimed := ExactSet(db.stock, db.sales.orders[o].product, db.sales.orders[o].quantity, terms.offered);
            && till.Ok? && |claimed| == db.sales.orders[o].quantity
            && Fulfil(db.(sales := s2, till := till.value, wallets := w), o, |db.till.payments|, claimed, terms) ==
               Ok(handed)
    ensures CompleteReceipt(db.gate, update).Ok?
    ensures PayFrom(db, account, user, o, key, update, terms).value.0 ==
            handed.(gate := CompleteReceipt(db.gate, update).value)
  {
    var order := db.sales.orders[o];
    var till := InsertPayment(db.till, WalletPaymentRow(order, user, o)).value;
    var claimed := ExactSet(db.stock, order.product, order.quantity, terms.offered);
    w := Post(db.wallets, account, ForOrder(o), -order.total, key).value;
    s2, handed := SettledShape(db.(till := till, wallets := w), o, |db.till.payments|, claimed, update, terms);
  }

  lemma SettledShape(db: Db, o: nat, payment: nat, claimed: set<nat>, update: nat, terms: Terms)
    returns (s2: Sales, handed: Db)
    requires o < |db.sales.orders|
    requires Settle(db, o, payment, claimed, update, terms).Ok?
    ensures PassThroughPaid(db.sales, o, "wallet_payment_accepted", "wallet_inventory_claimed") == Ok(s2)
    ensures o < |s2.orders|
    ensures s2.orders[o] == db.sales.orders[o].(status := s2.orders[o].status, version := s2.orders[o].version)
    ensures Fulfil(db.(sales := s2), o, payment, claimed, terms) == Ok(handed)
    ensures CompleteReceipt(db.gate, update).Ok?
    ensures Settle(db, o, payment, claimed, update, terms).value ==
            handed.(gate := CompleteReceipt(db.gate, update).value)
  {
    s2 := PassThroughPaid(db.sales, o, "wallet_payment_accepted", "wallet_inventory_claimed").value;
    handed := Fulfil(db.(sales := s2), o, payment, claimed, terms).value;
  }

  /** AdjustWallet; a debit is a negative amount. */
  function AdjustWallet(db: Db, ticket: Ticket, update: nat, user: nat, amount: int, key: string,
                        now: int): Result<Db>
  {
    var admitted := Admit(db.gate, ticket, WALLET_ADJUSTMENT, now);
    :- admitted;
    if user >= |db.sales.users| then Err(NotFound)
    else
      var (ensured, account) := EnsureAccount(db.wallets, user);
      :- Need(UpdateBalance(ensured, account, amount).Ok?, InsufficientWalletBalance);
      var wallets :- Post(ensured, account, ByAdmin(ticket.admin), amount, key);
      var gate :- Leave(db.gate, ticket, update, now);
      Ok(db.(wallets := wallets, gate := gate))
  }

  /** What a customer asks for, and the reference generated for it. */
  datatype TopupRequest = TopupRequest(user: nat, amount: int, bank: nat, key: string, reference: string,
                                       expiresAt: int, environment: string)

  /** CreateWalletTopup: the flag tells a duplicate from a new intent. */
  function CreateTopup(db: Db, request: TopupRequest, update: nat): Result<(Db, nat, bool)> {
    var active := ActiveUser(db.sales, request.user);
    :- active;
    match FindTopupByKey(db.wallets, request.user, request.key)
    case Some(t) =>
      var gate :- CompleteReceipt(db.gate, update);
      Ok((db.(gate := gate), t, true))
    case None =>
      var (ensured, account) := EnsureAccount(db.wallets, request.user);
      :- Need(ActiveBank(db.sales, request.bank, request.environment), BankAccountInactive);
      var topup := Topup(request.user, account, request.amount, request.reference, request.key, TopupPending,
                         request.expiresAt, request.environment, request.bank, 1);
      var inserted :- InsertTopup(ensured, topup);
      match inserted
      case None => Err(NoRows)
      case Some(wallets) =>
        var gate :- CompleteReceipt(db.gate, update);
        Ok((db.(wallets := wallets, gate := gate), |db.wallets.topups|, false))
  }

  /** GetActiveBankAccountForOrder. */
  predicate ActiveBank(s: Sales, bank: nat, environment: string) {
    bank < |s.banks| && s.banks[bank].active && s.banks[bank].environment == environment
  }
}
