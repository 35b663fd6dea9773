/** Customers, catalogue, orders and order history, with the SQL statements that
    read and write them. A row id is the position of the row: the tables use
    identity columns and no statement deletes a row. */
module SalesTable {
  import opened Results
  import opened Domain

  type Time = int

  datatype User = User(chat: int, active: bool)

  datatype Product = Product(price: int, active: bool, categoryActive: bool, fromInventory: bool)

  datatype Bank = Bank(active: bool, environment: string)

  /** One row of orders joined with its single row of order_items. */
  datatype Order = Order(
    user: nat, status: OrderStatus, version: nat,
    product: nat, unitPrice: int, quantity: int, total: int,
    reference: string, key: string, expiresAt: Time,
    environment: string, bank: nat)

  datatype HistoryRow = HistoryRow(from: Option<OrderStatus>, to: OrderStatus, reason: string)

  datatype Sales = Sales(
    users: seq<User>, products: seq<Product>, banks: seq<Bank>,
    orders: seq<Order>, history: map<nat, seq<HistoryRow>>)

  const CURRENCY := "VND"

  /** UpdateOrderStatusGuarded, and the statements that differ from it only in
      the statuses they name: MarkOrderPaidGuarded, MarkOrderDeliveringGuarded,
      MarkOrderDeliveredGuarded, CancelPendingOrderOwnedGuarded. */
  function UpdateStatus(s: Sales, order: nat, from: OrderStatus, version: nat, to: OrderStatus): Result<Sales> {
    if order < |s.orders| && s.orders[order].status == from && s.orders[order].version == version then
      Ok(s.(orders := s.orders[order := s.orders[order].(status := to, version := version + 1)]))
    else
      Err(NoRows)
  }

  function HistoryOf(s: Sales, order: nat): seq<HistoryRow> {
    if order in s.history then s.history[order] else []
  }

  function InsertHistory(s: Sales, order: nat, from: Option<OrderStatus>, to: OrderStatus, reason: string): Sales {
    s.(history := s.history[order := HistoryOf(s, order) + [HistoryRow(from, to, reason)]])
  }

  /** A guarded status update followed by its history row. */
  function Move(s: Sales, order: nat, from: OrderStatus, to: OrderStatus, reason: string): Result<Sales> {
    if order < |s.orders| then
      var updated :- UpdateStatus(s, order, from, s.orders[order].version, to);
      Ok(InsertHistory(updated, order, Some(from), to, reason))
    else
      Err(NoRows)
  }

  /** The two statuses an order only has inside a payment transaction. */
  function PassThroughPaid(s: Sales, order: nat, paid: string, reserving: string): Result<Sales> {
    var first :- Move(s, order, PendingPayment, Paid, paid);
    Move(first, order, Paid, Reserving, reserving)
  }

  function FindByKey(s: Sales, user: nat, key: string): (found: Option<nat>)
    ensures found.Some? ==>
              found.value < |s.orders| && s.orders[found.value].user == user && s.orders[found.value].key == key
    ensures found.None? ==>
              forall o :: 0 <= o < |s.orders| ==> !(s.orders[o].user == user && s.orders[o].key == key)
  {
    var wanted := (o: Order) => o.user == user && o.key == key;
    var found := Find(s.orders, wanted);
    assert found.None? ==> forall o :: 0 <= o < |s.orders| ==> !wanted(s.orders[o]);
    found
  }

  function FindByReference(s: Sales, reference: string): (found: Option<nat>)
    ensures found.Some? ==> found.value < |s.orders| && s.orders[found.value].reference == reference
    ensures found.None? ==> forall o :: 0 <= o < |s.orders| ==> s.orders[o].reference != reference
  {
    var wanted := (o: Order) => o.reference == reference;
    var found := Find(s.orders, wanted);
    assert found.None? ==> forall o :: 0 <= o < |s.orders| ==> !wanted(s.orders[o]);
    found
  }

  /** CreatePendingOrderWithBank: ON CONFLICT DO NOTHING covers both unique
      constraints, (user, key) and the payment reference. */
  function InsertPendingOrder(s: Sales, order: Order): Option<Sales> {
    if FindByKey(s, order.user, order.key).Some? || FindByReference(s, order.reference).Some? then None
    else Some(s.(orders := s.orders + [order.(status := PendingPayment, version := 1)]))
  }

  // ---------- what every commit keeps ----------

  ghost predicate Linked(earlier: HistoryRow, later: HistoryRow) {
    later.from == Some(earlier.to) && CanTransitionOrder(earlier.to, later.to)
  }

  /** A history is a contiguous legal path from PendingPayment to the status,
      and the version counts its rows. */
  ghost predicate LegalPath(rows: seq<HistoryRow>, status: OrderStatus, version: nat) {
    && |rows| == version
    && rows != []
    && rows[0].from == None
    && rows[0].to == PendingPayment
    && rows[|rows| - 1].to == status
    && forall k :: 0 <= k < |rows| - 1 ==> Linked(rows[k], rows[k + 1])
  }

  ghost predicate OrderOk(s: Sales, order: nat)
    requires order < |s.orders|
  {
    var o := s.orders[order];
    && LegalPath(HistoryOf(s, order), o.status, o.version)
    && o.status !in {Paid, Reserving, PaymentReview, Refunded}
    && o.user < |s.users|
    && s.users[o.user].chat > 0
    && o.quantity > 0
    && o.total == o.unitPrice * o.quantity
    && 0 <= o.total <= MAX_INT64
  }

  ghost predicate SalesOk(s: Sales) {
    && (forall o :: 0 <= o < |s.orders| ==> OrderOk(s, o))
    && (forall o :: o in s.history ==> o < |s.orders|)
    && (forall o, p :: 0 <= o < p < |s.orders| ==> s.orders[o].reference != s.orders[p].reference)
    && (forall o, p :: 0 <= o < p < |s.orders| ==>
        !(s.orders[o].user == s.orders[p].user && s.orders[o].key == s.orders[p].key))
    && (forall u :: 0 <= u < |s.users| ==> s.users[u].chat > 0)
  }

  /** Nothing but the status, the version and the history of one order differ. */
  ghost predicate OnlyMoved(s: Sales, s': Sales, order: nat) {
    && s'.users == s.users && s'.products == s.products && s'.banks == s.banks
    && |s'.orders| == |s.orders|
    && order < |s.orders|
    && s'.orders[order] == s.orders[order].(status := s'.orders[order].status, version := s'.orders[order].version)
    && (forall o :: 0 <= o < |s.orders| && o != order ==> s'.orders[o] == s.orders[o])
    && (forall o: nat :: o != order ==> HistoryOf(s', o) == HistoryOf(s, o))
    && s'.history.Keys == s.history.Keys + {order}
  }

  /** Several rows of history at once: the path of the moved order grows by a
      legal path from its old status to its new one. */
  lemma PathGrows(rows: seq<HistoryRow>, status: OrderStatus, version: nat, to: OrderStatus, reason: string)
    requires LegalPath(rows, status, version)
    requires CanTransitionOrder(status, to)
    ensures LegalPath(rows + [HistoryRow(Some(status), to, reason)], to, version + 1)
  {
    var grown := rows + [HistoryRow(Some(status), to, reason)];
    forall k | 0 <= k < |grown| - 1
      ensures Linked(grown[k], grown[k + 1])
    {
      if k < |rows| - 1 {
        assert Linked(rows[k], rows[k + 1]);
      }
    }
  }

  /** One guarded move along the transition table grows the path of its order
      by one row and its version by one, and touches no other order. */
  lemma MoveKeepsPath(s: Sales, order: nat, from: OrderStatus, to: OrderStatus, reason: string)
    requires order < |s.orders|
    requires s.orders[order].status == from
    requires LegalPath(HistoryOf(s, order), from, s.orders[order].version)
    requires CanTransitionOrder(from, to)
    ensures Move(s, order, from, to, reason).Ok?
    ensures var s' := Move(s, order, from, to, reason).value;
            && OnlyMoved(s, s', order)
            && s'.orders[order].status == to
            && LegalPath(HistoryOf(s', order), to, s'.orders[order].version)
  {
    PathGrows(HistoryOf(s, order), from, s.orders[order].version, to, reason);
  }

  /** A move to a status that a commit may show keeps the whole table sound. */
  lemma SalesFrame(s: Sales, s': Sales, order: nat)
    requires SalesOk(s)
    requires OnlyMoved(s, s', order)
    requires LegalPath(HistoryOf(s', order), s'.orders[order].status, s'.orders[order].version)
    requires s'.orders[order].status !in {Paid, Reserving, PaymentReview, Refunded}
    ensures SalesOk(s')
  {
    forall o | 0 <= o < |s'.orders|
      ensures OrderOk(s', o)
    {
      assert OrderOk(s, o);
      if o != order {
        assert HistoryOf(s', o) == HistoryOf(s, o);
      }
    }
    forall o, p | 0 <= o < p < |s'.orders|
      ensures s'.orders[o].reference != s'.orders[p].reference
      ensures !(s'.orders[o].user == s'.orders[p].user && s'.orders[o].key == s'.orders[p].key)
    {
      assert s.orders[o].reference != s.orders[p].reference;
      assert !(s.orders[o].user == s.orders[p].user && s.orders[o].key == s.orders[p].key);
      assert forall i :: 0 <= i < |s.orders| ==>
             s'.orders[i].reference == s.orders[i].reference && s'.orders[i].user == s.orders[i].user
                 && s'.orders[i].key == s.orders[i].key;
    }
  }

  /** A new pending order with its opening history row keeps the table sound:
      both unique constraints hold because the statement checks them. */
  lemma InsertKeepsSales(s: Sales, order: Order, reason: string)
    requires SalesOk(s)
    requires InsertPendingOrder(s, order).Some?
    requires order.user < |s.users|
    requires order.quantity > 0 && order.total == order.unitPrice * order.quantity && 0 <= order.total <= MAX_INT64
    ensures SalesOk(InsertHistory(InsertPendingOrder(s, order).value, |s.orders|, None, PendingPayment, reason))
  {
    var s1 := InsertPendingOrder(s, order).value;
    var s' := InsertHistory(s1, |s.orders|, None, PendingPayment, reason);
    assert HistoryOf(s1, |s.orders|) == [];
    forall o | 0 <= o < |s'.orders|
      ensures OrderOk(s', o)
    {
      if o < |s.orders| {
        assert OrderOk(s, o);
        assert HistoryOf(s', o) == HistoryOf(s, o);
      }
    }
  }
}
