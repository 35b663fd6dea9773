/** Creation of an order with its reference-collision loop, cancellation by the
    customer, and expiry of overdue orders. */
module OrderStore {
  import opened Results
  import opened Domain
  import opened Database
  import opened GateTable
  import opened SalesTable
  import opened StockTable
  import opened WalletStore

  const REFERENCE_ATTEMPTS := 8

  datatype OrderRequest = OrderRequest(user: nat, product: nat, quantity: int, bank: nat, key: string)

  /** Settings of the order service, and its clock. */
  datatype OrderTerms = OrderTerms(now: int, expiry: int, maxQuantity: int, environment: string)

  /** Everything Create checks before it draws references: the order to insert,
      but for its reference. */
  function Draft(db: Db, request: OrderRequest, terms: OrderTerms): Result<Order> {
    if request.product >= |db.sales.products| then Err(OrderNotFound)
    else
      var product := db.sales.products[request.product];
      :- Need(product.categoryActive, CategoryInactive);
      :- Need(product.active && product.fromInventory, ProductInactive);
      var total :- Multiply(product.price, request.quantity);
      :- Need(|Claimable(db.stock, request.product)| >= request.quantity, InsufficientInventory);
      :- Need(ActiveBank(db.sales, request.bank, terms.environment), BankAccountInactive);
      Ok(Order(request.user, PendingPayment, 1, request.product, product.price, request.quantity, total,
               "", request.key, terms.now + terms.expiry, terms.environment, request.bank))
  }

  /** The loop over generated references: the first one that inserts wins, and a
      failed insert is retried unless the key turns out to be taken. */
  function InsertWithReference(s: Sales, draft: Order, references: seq<string>): Result<(Sales, nat, bool)> {
    if references == [] then Err(PaymentReferenceCollision)
    else
      match InsertPendingOrder(s, draft.(reference := references[0]))
      case Some(inserted) =>
        Ok((InsertHistory(inserted, |s.orders|, None, PendingPayment, "order_created"), |s.orders|, false))
      case None =>
        match FindByKey(s, draft.user, draft.key)
        case Some(o) => Ok((s, o, true))
        case None => InsertWithReference(s, draft, references[1..])
  }

  /** Create: the order it answers with, and whether it existed before. At most
      REFERENCE_ATTEMPTS of the drawn references are used. */
  function CreateOrder(db: Db, request: OrderRequest, update: nat, terms: OrderTerms,
                       drawn: seq<string>): Result<(Db, nat, bool)>
  {
    var checked := Need(request.key != "", InvalidInput);
    :- checked;
    :- Need(request.quantity > 0, InvalidQuantity);
    :- Need(terms.maxQuantity > 0 && request.quantity <= terms.maxQuantity, QuantityLimitExceeded);
    :- Need(terms.expiry > 0, InvalidInput);
    :- ActiveUser(db.sales, request.user);
    match FindByKey(db.sales, request.user, request.key)
    case Some(o) =>
      var gate :- CompleteReceipt(db.gate, update);
      Ok((db.(gate := gate), o, true))
    case None =>
      var draft :- Draft(db, request, terms);
      var references := if |drawn| > REFERENCE_ATTEMPTS then drawn[..REFERENCE_ATTEMPTS] else drawn;
      var (sales, o, duplicate) :- InsertWithReference(db.sales, draft, references);
      var gate :- CompleteReceipt(db.gate, update);
      Ok((db.(sales := sales, gate := gate), o, duplicate))
  }

  /** Cancel: the flag tells that the order was cancelled before. */
  function CancelOrder(db: Db, user: nat, o: nat, version: nat, update: nat, now: int): Result<(Db, bool)> {
    if o >= |db.sales.orders| || db.sales.orders[o].user != user then Err(OrderNotFound)
    else
      var order := db.sales.orders[o];
      if order.status == Cancelled then
        var gate :- CompleteReceipt(db.gate, update);
        Ok((db.(gate := gate), true))
      else
        :- Need(order.status != Expired && order.expiresAt > now, OrderExpired);
        :- Need(order.version == version, StaleVersion);
        :- Need(CustomerMayMove(order.status, Cancelled), InvalidOrderState);
        var sales :- Move(db.sales, o, PendingPayment, Cancelled, "customer_cancelled");
        var gate :- CompleteReceipt(db.gate, update);
        Ok((db.(sales := sales, gate := gate), false))
  }

  predicate Overdue(s: Sales, o: nat, now: int) {
    o < |s.orders| && s.orders[o].status == PendingPayment && s.orders[o].expiresAt <= now
  }

  /** ExpireOverdueOrders: picked rows that are not overdue are not selected. */
  function ExpireOrders(s: Sales, picked: seq<nat>, now: int): Sales
    decreases |picked|
  {
    if picked == [] then s
    else
      var next := if Overdue(s, picked[0], now) then Expire(s, picked[0]) else s;
      ExpireOrders(next, picked[1..], now)
  }

  function Expire(s: Sales, o: nat): Sales {
    match Move(s, o, PendingPayment, Expired, "payment_window_elapsed")
    case Ok(next) => next
    case Err(_) => s
  }

  /** ClaimOverduePendingOrders: one statement over the picked rows that are overdue. */
  function ClaimOverdue(s: Sales, picked: seq<nat>, now: int): Sales {
    s.(orders := seq(|s.orders|, o requires 0 <= o < |s.orders| =>
      if o in picked && Overdue(s, o, now) then
        s.orders[o].(status := Expired, version := s.orders[o].version + 1)
      else s.orders[o]))
  }

  /** The ids it returns, each once. */
  function OverdueRows(s: Sales, picked: seq<nat>, now: int): (ids: seq<nat>)
    ensures forall o :: o in ids <==> o in picked && Overdue(s, o, now)
    ensures forall i, j :: 0 <= i < j < |ids| ==> ids[i] != ids[j]
  {
    if picked == [] then []
    else
      var rest := OverdueRows(s, picked[1..], now);
      assert picked == [picked[0]] + picked[1..];
      if Overdue(s, picked[0], now) && picked[0] !in rest then [picked[0]] + rest else rest
  }

  /** The picked rows that were overdue have expired; history is not looked at. */
  ghost predicate ExpiredRows(s: Sales, s': Sales, picked: seq<nat>, now: int) {
    s'.(history := s.history) == ClaimOverdue(s, picked, now)
  }

  /** Exactly the given orders have one history row more. */
  ghost predicate ExpiryLogged(s: Sales, s': Sales, expired: set<nat>) {
    && s'.history.Keys == s.history.Keys + expired
    && forall o: nat :: HistoryOf(s', o) == HistoryOf(s, o) + Ending(o in expired)
  }

  function Ending(expired: bool): seq<HistoryRow> {
    if expired then [HistoryRow(Some(PendingPayment), Expired, "payment_window_elapsed")] else []
  }

  lemma OneMoreLogged(s: Sales, s': Sales, expired: set<nat>, o: nat)
    requires o !in expired && ExpiryLogged(s, s', expired)
    ensures var last := InsertHistory(s', o, Some(PendingPayment), Expired, "payment_window_elapsed");
            ExpiryLogged(s, last, expired + {o})
  {
    var last := InsertHistory(s', o, Some(PendingPayment), Expired, "payment_window_elapsed");
    forall p: nat
      ensures HistoryOf(last, p) == HistoryOf(s, p) + Ending(p in expired + {o})
    {
      assert HistoryOf(s', p) == HistoryOf(s, p) + Ending(p in expired);
    }
  }

  function Members(ids: seq<nat>): set<nat> {
    set o | o in ids
  }

  lemma OneMoreMember(ids: seq<nat>, k: nat)
    requires k < |ids| && forall i, j :: 0 <= i < j < |ids| ==> ids[i] != ids[j]
    ensures ids[k] !in Members(ids[..k])
    ensures Members(ids[..k + 1]) == Members(ids[..k]) + {ids[k]}
  {
    assert ids[..k + 1] == ids[..k] + [ids[k]];
  }

  function OverdueAmong(s: Sales, picked: seq<nat>, now: int): set<nat> {
    set o | o in picked && Overdue(s, o, now)
  }

  /** Expiring the picked orders one by one, each with its history row, is the one
      statement followed by all the history rows. */
  lemma {:induction false} ExpiredAtOnce(s: Sales, s': Sales, picked: seq<nat>, now: int)
    requires ExpiredRows(s, s', picked, now) && ExpiryLogged(s, s', OverdueAmong(s, picked, now))
    ensures s' == ExpireOrders(s, picked, now)
    decreases |picked|
  {
    if picked == [] {
      assert s'.orders == s.orders;
      NothingLogged(s, s');
    } else if Overdue(s, picked[0], now) {
      OneRowExpired(s, s', picked, now);
      OneRowLogged(s, s', picked[0], OverdueAmong(s, picked, now), now);
      FewerOverdue(s, picked, now);
      ExpiredAtOnce(Expire(s, picked[0]), s', picked[1..], now);
    } else {
      assert picked == [picked[0]] + picked[1..];
      assert ClaimOverdue(s, picked, now).orders == ClaimOverdue(s, picked[1..], now).orders;
      assert OverdueAmong(s, picked[1..], now) == OverdueAmong(s, picked, now);
      ExpiredAtOnce(s, s', picked[1..], now);
    }
  }

  /** The history is the same before and after the one statement. */
  lemma LoggedByClaim(s: Sales, s': Sales, picked: seq<nat>, ids: seq<nat>, now: int)
    requires forall o :: o in ids <==> o in picked && Overdue(s, o, now)
    requires s' == ClaimOverdue(s, picked, now).(history := s'.history)
    requires ExpiryLogged(ClaimOverdue(s, picked, now), s', Members(ids))
    ensures ExpiredRows(s, s', picked, now) && ExpiryLogged(s, s', OverdueAmong(s, picked, now))
  {
    assert Members(ids) == OverdueAmong(s, picked, now);
    forall o: nat
      ensures HistoryOf(s', o) == HistoryOf(s, o) + Ending(o in Members(ids))
    {
      assert HistoryOf(s', o) == HistoryOf(ClaimOverdue(s, picked, now), o) + Ending(o in Members(ids));
    }
  }

  lemma NothingLogged(s: Sales, s': Sales)
    requires ExpiryLogged(s, s', {})
    ensures s'.history == s.history
  {
    forall o | o in s.history
      ensures s'.history[o] == s.history[o]
    {
      assert HistoryOf(s', o) == HistoryOf(s, o) + Ending(false);
    }
  }

  lemma FewerOverdue(s: Sales, picked: seq<nat>, now: int)
    requires picked != [] && Overdue(s, picked[0], now)
    ensures OverdueAmong(Expire(s, picked[0]), picked[1..], now) == OverdueAmong(s, picked, now) - {picked[0]}
  {
    assert picked == [picked[0]] + picked[1..];
    OthersStayOverdue(s, picked[0], now);
  }

  lemma OthersStayOverdue(s: Sales, first: nat, now: int)
    requires Overdue(s, first, now)
    ensures forall o: nat :: Overdue(Expire(s, first), o, now) <==> Overdue(s, o, now) && o != first
  {
  }

  lemma OneRowLogged(s: Sales, s': Sales, first: nat, expired: set<nat>, now: int)
    requires Overdue(s, first, now) && first in expired && ExpiryLogged(s, s', expired)
    ensures ExpiryLogged(Expire(s, first), s', expired - {first})
  {
    var next := Expire(s, first);
    forall o: nat
      ensures HistoryOf(s', o) == HistoryOf(next, o) + Ending(o in expired - {first})
    {
      assert HistoryOf(s', o) == HistoryOf(s, o) + Ending(o in expired);
    }
  }

  lemma OneRowExpired(s: Sales, s': Sales, picked: seq<nat>, now: int)
    requires picked != [] && Overdue(s, picked[0], now)
    requires ExpiredRows(s, s', picked, now)
    ensures ExpiredRows(Expire(s, picked[0]), s', picked[1..], now)
  {
    var next := Expire(s, picked[0]);
    assert picked == [picked[0]] + picked[1..];
    forall o | 0 <= o < |s.orders|
      ensures s'.orders[o] == ClaimOverdue(next, picked[1..], now).orders[o]
    {
      assert s'.orders[o] == ClaimOverdue(s, picked, now).orders[o];
    }
    assert s'.orders == ClaimOverdue(next, picked[1..], now).orders;
  }

  /** The ids below n, in ascending order. */
  function Ascending(ids: seq<nat>, n: nat): (r: seq<nat>)
    ensures forall o :: o in r <==> o in ids && o < n
    ensures forall i, j :: 0 <= i < j < |r| ==> r[i] < r[j]
  {
    if n == 0 then []
    else
      var below := Ascending(ids, n - 1);
      assert forall i :: 0 <= i < |below| ==> below[i] in below;
      if n - 1 in ids then below + [n - 1] else below
  }
}
