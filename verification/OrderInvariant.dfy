/** Order creation, cancellation, expiry and the inventory transactions keep the
    invariant. */
module OrderInvariant {
  import opened Domain
  import opened Agreement
  import opened Database
  import opened DeliveryInvariant
  import opened GateTable
  import opened InventoryStore
  import opened OrderStore
  import opened QueueTable
  import opened SalesTable
  import opened StockTable
  import opened TillTable

  // ---------- creation ----------

  /** A new pending order changes nothing for the orders before it, and nothing
      refers to it yet. */
  lemma OrderAdded(db: Db, s': Sales)
    requires Inv(db)
    requires SalesOk(s')
    requires s'.users == db.sales.users
    requires |s'.orders| == |db.sales.orders| + 1 && db.sales.orders <= s'.orders
    requires s'.orders[|db.sales.orders|].status == PendingPayment
    ensures Inv(db.(sales := s'))
  {
    assert Holds(JobsMatch, db) && Holds(HoldingsMatch, db) && Holds(PaymentsMatch, db) && Holds(DebitsMatch, db);
    AddedToJobs(db.sales, s', db.queue);
    forall p: nat
      ensures HoldsItsShare(s', db.stock, p)
    {
      assert HoldsItsShare(db.sales, db.stock, p);
    }
    AddedToTill(db.sales, s', db.till);
    DebitsKept(db.sales, s', db.till, db.till, db.wallets, db.wallets);
    forall part
      ensures Holds(part, db.(sales := s'))
    {
      assert Holds(part, db);
    }
  }

  lemma AddedToJobs(s: Sales, s': Sales, q: Queue)
    requires JobsAgree(s, q)
    requires s'.users == s.users && |s'.orders| == |s.orders| + 1 && s.orders <= s'.orders
    requires s'.orders[|s.orders|].status == PendingPayment
    ensures JobsAgree(s', q)
  {
    forall j | 0 <= j < |q.jobs|
      ensures JobFits(s', q, j)
    {
      assert JobFits(s, q, j);
    }
  }

  lemma AddedToTill(s: Sales, s': Sales, t: Till)
    requires TillAgrees(s, t)
    requires |s'.orders| == |s.orders| + 1 && s.orders <= s'.orders
    requires s'.orders[|s.orders|].status == PendingPayment
    ensures TillAgrees(s', t)
  {
    forall a | 0 <= a < |t.allocations|
      ensures AllocationFits(s', t, a)
      ensures t.allocations[a].target != OrderTarget(|s.orders|)
    {
      assert AllocationFits(s, t, a);
    }
    forall p | 0 <= p < |s'.orders|
      ensures PaidIffFulfilling(s', t, p)
    {
      if p < |s.orders| {
        assert PaidIffFulfilling(s, t, p);
      }
    }
  }

  /** A draft is an order of the asking user whose total is the exact product, with
      the price of an active product and a bank that is active for its environment. */
  lemma DraftIsExact(db: Db, request: OrderRequest, terms: OrderTerms)
    requires request.quantity > 0
    requires Draft(db, request, terms).Ok?
    ensures && request.product < |db.sales.products|
            && var product := db.sales.products[request.product];
            && product.active && product.categoryActive && product.fromInventory && product.price >= 0
            && product.price * request.quantity <= MAX_INT64
            && Draft(db, request, terms).value ==
               Order(request.user, PendingPayment, 1, request.product, product.price, request.quantity,
                     product.price * request.quantity, "", request.key, terms.now + terms.expiry, terms.environment,
                     request.bank)
    ensures |Claimable(db.stock, request.product)| >= request.quantity
    ensures && request.bank < |db.sales.banks| && db.sales.banks[request.bank].active
            && db.sales.banks[request.bank].environment == terms.environment
  {
    var price := db.sales.products[request.product].price;
    if price >= 0 {
      MultiplyExact(price, request.quantity);
      assert price * request.quantity >= 0;
    }
  }

  /** The loop inserts one order with its opening history row, or finds the one
      that took the key, or inserts nothing. */
  lemma {:induction false} InsertKeeps(db: Db, draft: Order, references: seq<string>)
    requires Inv(db)
    requires draft.user < |db.sales.users| && draft.quantity > 0
    requires draft.total == draft.unitPrice * draft.quantity && 0 <= draft.total <= MAX_INT64
    requires InsertWithReference(db.sales, draft, references).Ok?
    ensures Inv(db.(sales := InsertWithReference(db.sales, draft, references).value.0))
  {
    assert Holds(SalesSound, db);
    var order := draft.(reference := references[0]);
    match InsertPendingOrder(db.sales, order)
    case Some(inserted) =>
      InsertKeepsSales(db.sales, order, "order_created");
      OrderAdded(db, InsertWithReference(db.sales, draft, references).value.0);
    case None =>
      if FindByKey(db.sales, draft.user, draft.key).None? {
        InsertKeeps(db, draft, references[1..]);
      } else {
        assert db.(sales := db.sales) == db;
      }
  }

  lemma CreateKeeps(db: Db, request: OrderRequest, update: nat, terms: OrderTerms, drawn: seq<string>)
    requires Inv(db)
    requires CreateOrder(db, request, update, terms, drawn).Ok?
    ensures Inv(CreateOrder(db, request, update, terms, drawn).value.0)
  {
    if FindByKey(db.sales, request.user, request.key).None? {
      DraftIsExact(db, request, terms);
      var references := if |drawn| > REFERENCE_ATTEMPTS then drawn[..REFERENCE_ATTEMPTS] else drawn;
      InsertKeeps(db, Draft(db, request, terms).value, references);
      var db' := CreateOrder(db, request, update, terms, drawn).value.0;
      GateIsFree(db.(sales := db'.sales), db'.gate);
    } else {
      GateIsFree(db, CreateOrder(db, request, update, terms, drawn).value.0.gate);
    }
  }

  // ---------- cancellation and expiry ----------

  lemma PendingOrderLeaves(db: Db, o: nat, to: OrderStatus, reason: string)
    requires Inv(db)
    requires o < |db.sales.orders| && db.sales.orders[o].status == PendingPayment
    requires to in {Expired, Cancelled}
    ensures Move(db.sales, o, PendingPayment, to, reason).Ok?
    ensures Inv(db.(sales := Move(db.sales, o, PendingPayment, to, reason).value))
  {
    assert Holds(SalesSound, db);
    assert OrderOk(db.sales, o);
    MoveKeepsPath(db.sales, o, PendingPayment, to, reason);
    var s' := Move(db.sales, o, PendingPayment, to, reason).value;
    SalesFrame(db.sales, s', o);
    UnpaidOrderMoves(db, s', o);
  }

  lemma CancelKeeps(db: Db, user: nat, o: nat, version: nat, update: nat, now: int)
    requires Inv(db)
    requires CancelOrder(db, user, o, version, update, now).Ok?
    ensures Inv(CancelOrder(db, user, o, version, update, now).value.0)
  {
    if db.sales.orders[o].status != Cancelled {
      PendingOrderLeaves(db, o, Cancelled, "customer_cancelled");
      var db' := CancelOrder(db, user, o, version, update, now).value.0;
      GateIsFree(db.(sales := db'.sales), db'.gate);
    } else {
      GateIsFree(db, CancelOrder(db, user, o, version, update, now).value.0.gate);
    }
  }

  lemma {:induction false} ExpireKeeps(db: Db, picked: seq<nat>, now: int)
    requires Inv(db)
    ensures Inv(db.(sales := ExpireOrders(db.sales, picked, now)))
    decreases |picked|
  {
    if picked == [] {
      assert db.(sales := ExpireOrders(db.sales, picked, now)) == db;
    } else if Overdue(db.sales, picked[0], now) {
      PendingOrderLeaves(db, picked[0], Expired, "payment_window_elapsed");
      ExpireKeeps(db.(sales := Expire(db.sales, picked[0])), picked[1..], now);
    } else {
      ExpireKeeps(db, picked[1..], now);
    }
  }

  // ---------- inventory ----------

  lemma StockMoves(db: Db, k': Stock)
    requires Inv(db)
    requires StockOk(k')
    requires forall o: nat :: SameHoldings(db.stock, k', o)
    ensures Inv(db.(stock := k'))
  {
    assert Holds(HoldingsMatch, db);
    forall o: nat
      ensures HoldsItsShare(db.sales, k', o)
    {
      assert HoldsItsShare(db.sales, db.stock, o);
      assert SameHoldings(db.stock, k', o);
    }
    forall part
      ensures Holds(part, db.(stock := k'))
    {
      assert Holds(part, db);
    }
  }

  lemma ImportKeeps(db: Db, ticket: Ticket, update: nat, product: nat, unseen: nat, now: int)
    requires Inv(db)
    requires Import(db, ticket, update, product, unseen, now).Ok?
    ensures Inv(Import(db, ticket, update, product, unseen, now).value)
  {
    assert Holds(StockSound, db);
    ImportKeepsStock(db.stock, product, unseen);
    StockMoves(db, ImportItems(db.stock, product, unseen));
    var db' := Import(db, ticket, update, product, unseen, now).value;
    GateIsFree(db.(stock := db'.stock), db'.gate);
  }

  lemma SwitchKeeps(db: Db, ticket: Ticket, update: nat, item: nat, version: nat, enable: bool, now: int)
    requires Inv(db)
    requires SetEnabled(db, ticket, update, item, version, enable, now).Ok?
    ensures Inv(SetEnabled(db, ticket, update, item, version, enable, now).value)
  {
    assert Holds(StockSound, db);
    SwitchKeepsStock(db.stock, item, version, enable);
    StockMoves(db, SwitchItem(db.stock, item, version, enable).value);
    var db' := SetEnabled(db, ticket, update, item, version, enable, now).value;
    GateIsFree(db.(stock := db'.stock), db'.gate);
  }

  /** In a committed state an order whose items may be released holds none: every
      safe release, and every recovery, frees nothing. */
  lemma ReleaseFreesNothing(db: Db, o: nat, reason: ReleaseReason, now: int)
    requires Inv(db)
    ensures ReleaseInventory(db, o, reason).Ok? ==> ReleaseInventory(db, o, reason).value == (db, 0)
    ensures RecoverExpired(db, o, now).Ok? ==>
              && RecoverExpired(db, o, now).value.0 == db
              && RecoverExpired(db, o, now).value.1.released == 0
  {
    assert Holds(HoldingsMatch, db);
    assert HoldsItsShare(db.sales, db.stock, o);
  }
}
