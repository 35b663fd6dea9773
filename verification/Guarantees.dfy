/** What the invariant means for a reader: statements about every database that
    some run of committed transactions reaches from the empty tables. */
module Guarantees {
  import opened Results
  import opened Domain
  import opened Agreement
  import opened Anomalies
  import opened Database
  import opened OrderIdempotence
  import opened PaymentAcceptance
  import opened Progress
  import opened QueueTable
  import opened SalesTable
  import opened Shop
  import opened ShopInvariant
  import opened StockTable
  import opened TillTable
  import opened WalletStore
  import opened WalletTable

  /** Every order has walked a contiguous legal path of the transition table, from
      pending_payment to its status, one version for each step, and rests in none
      of the statuses that only exist inside a transaction. */
  lemma OrdersWalkLegalPaths(actions: seq<Action>, o: nat)
    requires o < |Run(Empty(), actions).sales.orders|
    ensures var s := Run(Empty(), actions).sales;
            var rows := HistoryOf(s, o);
            && |rows| == s.orders[o].version >= 1
            && rows[0].from == None && rows[0].to == PendingPayment
            && rows[|rows| - 1].to == s.orders[o].status
            && (forall k :: 0 <= k < |rows| - 1 ==>
                rows[k + 1].from == Some(rows[k].to) && CanTransitionOrder(rows[k].to, rows[k + 1].to))
            && s.orders[o].status != Paid && s.orders[o].status != Reserving
  {
    ReachableIsSound(actions);
    var db := Run(Empty(), actions);
    assert Holds(SalesSound, db);
    assert OrderOk(db.sales, o);
    var rows := HistoryOf(db.sales, o);
    forall k | 0 <= k < |rows| - 1
      ensures rows[k + 1].from == Some(rows[k].to) && CanTransitionOrder(rows[k].to, rows[k + 1].to)
    {
      assert Linked(rows[k], rows[k + 1]);
    }
  }

  /** An available or disabled item has no active mapping; a reserved or sold one has
      exactly one, of the order that holds it. */
  lemma ItemsAreMappedToTheirHolder(actions: seq<Action>, i: nat)
    requires i < |Run(Empty(), actions).stock.items|
    ensures var k := Run(Empty(), actions).stock;
            forall o: nat :: (o, i) in k.mappings && k.mappings[(o, i)] == StockTable.Active <==>
              Holder(k.items[i].state) == Some(o)
  {
    ReachableIsSound(actions);
    assert Holds(StockSound, Run(Empty(), actions));
  }

  /** Whatever an order holds or was sold is an encrypted item of the very product that
      was ordered. */
  lemma ItemsFitTheirOrders(actions: seq<Action>, i: nat, o: nat)
    requires var db := Run(Empty(), actions);
             i < |db.stock.items| && Holder(db.stock.items[i].state) == Some(o)
    ensures var db := Run(Empty(), actions);
            && o < |db.sales.orders| && db.stock.items[i].product == db.sales.orders[o].product
            && db.stock.items[i].encrypted
  {
    EmptyIsSound();
    assert AllFit(Empty());
    RunKeepsFits(Empty(), actions);
  }

  ghost predicate AllFit(db: Db) {
    forall i :: 0 <= i < |db.stock.items| && Holder(db.stock.items[i].state).Some? ==>
      Fits(db.sales, db.stock.items[i], Holder(db.stock.items[i].state).value)
  }

  lemma {:induction false} RunKeepsFits(db: Db, actions: seq<Action>)
    requires Inv(db) && AllFit(db)
    ensures AllFit(Run(db, actions))
    decreases |actions|
  {
    if actions == [] {
    } else {
      StepKeepsFits(db, actions[0]);
      StepKeeps(db, actions[0]);
      RunKeepsFits(Step(db, actions[0]), actions[1..]);
    }
  }

  lemma StepKeepsFits(db: Db, a: Action)
    requires Inv(db) && AllFit(db)
    ensures AllFit(Step(db, a))
  {
    StepMovesItems(db, a);
    StepKeepsOrders(db, a);
    var db' := Step(db, a);
    forall i | 0 <= i < |db'.stock.items| && Holder(db'.stock.items[i].state).Some?
      ensures Fits(db'.sales, db'.stock.items[i], Holder(db'.stock.items[i].state).value)
    {
      var o := Holder(db'.stock.items[i].state).value;
      assert ItemMoves(db.stock.items[i].state, db'.stock.items[i].state);
      assert Fits(db.sales, db.stock.items[i], o);
      assert SameOrder(db.sales.orders[o], db'.sales.orders[o]);
    }
  }

  /** Every order holds exactly what its status entitles it to: its quantity reserved
      while delivering or failed, its quantity sold once delivered, else nothing. */
  lemma OrdersHoldTheirShare(actions: seq<Action>, o: nat)
    requires o < |Run(Empty(), actions).sales.orders|
    ensures var db := Run(Empty(), actions);
            var order := db.sales.orders[o];
            && |ReservedBy(db.stock, o)| == (if order.status in {Delivering, DeliveryFailed} then order.quantity else 0)
            && |SoldTo(db.stock, o)| == (if order.status == Delivered then order.quantity else 0)
  {
    ReachableIsSound(actions);
    assert Holds(HoldingsMatch, Run(Empty(), actions));
    assert HoldsItsShare(Run(Empty(), actions).sales, Run(Empty(), actions).stock, o);
  }

  /** An order is being fulfilled if and only if it has a delivery job, and if and
      only if a confirmed payment of its exact total is allocated to it; it never
      has two of either. */
  lemma FulfilledIffPaidIffQueued(actions: seq<Action>, o: nat)
    requires o < |Run(Empty(), actions).sales.orders|
    ensures var db := Run(Empty(), actions);
            && (Fulfilling(db.sales.orders[o].status) <==>
                exists j :: 0 <= j < |db.queue.jobs| && db.queue.jobs[j].order == o)
            && (Fulfilling(db.sales.orders[o].status) <==>
                exists a :: 0 <= a < |db.till.allocations| && db.till.allocations[a].target == OrderTarget(o))
            && (forall i, j :: 0 <= i < j < |db.queue.jobs| ==> db.queue.jobs[i].order != db.queue.jobs[j].order)
            && (forall a, b :: 0 <= a < b < |db.till.allocations| ==>
                db.till.allocations[a].target != db.till.allocations[b].target)
            && (forall a :: 0 <= a < |db.till.allocations| && db.till.allocations[a].target == OrderTarget(o) ==>
                  && db.till.allocations[a].amount == db.sales.orders[o].total
                  && db.till.allocations[a].payment < |db.till.payments|
                  && db.till.payments[db.till.allocations[a].payment].confirmed
                  && db.till.payments[db.till.allocations[a].payment].amount == db.sales.orders[o].total)
  {
    ReachableIsSound(actions);
    var db := Run(Empty(), actions);
    JobIffFulfilling(db, o);
    PaidIffAllocated(db, o);
    assert Holds(QueueSound, db) && Holds(TillSound, db);
  }

  lemma JobIffFulfilling(db: Db, o: nat)
    requires Inv(db) && o < |db.sales.orders|
    ensures Fulfilling(db.sales.orders[o].status) <==>
            exists j :: 0 <= j < |db.queue.jobs| && db.queue.jobs[j].order == o
  {
    assert Holds(JobsMatch, db);
    if Fulfilling(db.sales.orders[o].status) {
      assert HasJob(db.queue, o);
    } else {
      NoJob(db.sales, db.queue, o);
    }
  }

  lemma PaidIffAllocated(db: Db, o: nat)
    requires Inv(db) && o < |db.sales.orders|
    ensures Fulfilling(db.sales.orders[o].status) <==>
            exists a :: 0 <= a < |db.till.allocations| && db.till.allocations[a].target == OrderTarget(o)
    ensures forall a :: 0 <= a < |db.till.allocations| && db.till.allocations[a].target == OrderTarget(o) ==>
              && db.till.allocations[a].amount == db.sales.orders[o].total
              && db.till.allocations[a].payment < |db.till.payments|
              && db.till.payments[db.till.allocations[a].payment].confirmed
              && db.till.payments[db.till.allocations[a].payment].amount == db.sales.orders[o].total
  {
    assert Holds(PaymentsMatch, db) && Holds(TillSound, db);
    assert PaidIffFulfilling(db.sales, db.till, o);
    forall a | 0 <= a < |db.till.allocations| && db.till.allocations[a].target == OrderTarget(o)
      ensures db.till.allocations[a].amount == db.sales.orders[o].total
      ensures db.till.allocations[a].payment < |db.till.payments|
      ensures db.till.payments[db.till.allocations[a].payment].confirmed
      ensures db.till.payments[db.till.allocations[a].payment].amount == db.sales.orders[o].total
    {
      assert AllocationFits(db.sales, db.till, a) && AllocationOk(db.till, a);
    }
  }

  /** Every provider transaction is recorded once and allocated at most once, and
      every recorded payment is allocated or has a review case. */
  lemma PaymentsHaveOneOutcome(actions: seq<Action>)
    ensures var t := Run(Empty(), actions).till;
            && (forall p, r :: 0 <= p < r < |t.payments| ==>
                  !SameTransaction(t.payments[p], t.payments[r].provider, t.payments[r].environment,
                                   t.payments[r].transaction))
            && (forall a, b :: 0 <= a < b < |t.allocations| ==> t.allocations[a].payment != t.allocations[b].payment)
            && (forall p :: 0 <= p < |t.payments| ==> Allocated(t, p) || UnderReview(t, p))
  {
    ReachableIsSound(actions);
    assert Holds(TillSound, Run(Empty(), actions));
  }

  /** A top-up is credited if and only if a payment of its exact amount is allocated
      to it, and then exactly one ledger entry of that amount is in its account. */
  lemma TopupsAreCreditedOnce(actions: seq<Action>, u: nat)
    requires u < |Run(Empty(), actions).wallets.topups|
    ensures var db := Run(Empty(), actions);
            var topup := db.wallets.topups[u];
            && (topup.status == TopupCredited <==>
                exists a :: 0 <= a < |db.till.allocations| && db.till.allocations[a].target == TopupTarget(u))
            && (forall a :: 0 <= a < |db.till.allocations| && db.till.allocations[a].target == TopupTarget(u) ==>
                  && db.till.allocations[a].amount == topup.amount
                  && db.till.allocations[a].payment < |db.till.payments|
                  && db.till.payments[db.till.allocations[a].payment].confirmed
                  && db.till.payments[db.till.allocations[a].payment].amount == topup.amount)
            && (topup.status == TopupCredited <==>
                exists e :: 0 <= e < |db.wallets.ledger| && db.wallets.ledger[e].source == FromTopup(u))
            && (forall e, f :: 0 <= e < f < |db.wallets.ledger| && db.wallets.ledger[e].source == FromTopup(u) ==>
                db.wallets.ledger[f].source != FromTopup(u))
            && (forall e :: 0 <= e < |db.wallets.ledger| && db.wallets.ledger[e].source == FromTopup(u) ==>
                  db.wallets.ledger[e].amount == topup.amount && db.wallets.ledger[e].account == topup.account)
  {
    ReachableIsSound(actions);
    var db := Run(Empty(), actions);
    assert Holds(WalletsSound, db) && Holds(TopupsMatch, db);
    assert PaidIffCredited(db.till, db.wallets, u) && TopupOk(db.wallets, u);
    TopupIsPaidExactly(db, u);
    forall e | 0 <= e < |db.wallets.ledger| && db.wallets.ledger[e].source == FromTopup(u)
      ensures db.wallets.topups[u].status == TopupCredited
      ensures db.wallets.ledger[e].amount == db.wallets.topups[u].amount
              && db.wallets.ledger[e].account == db.wallets.topups[u].account
    {
      assert EntryOk(db.wallets, e);
    }
  }

  lemma TopupIsPaidExactly(db: Db, u: nat)
    requires Inv(db) && u < |db.wallets.topups|
    ensures forall a :: 0 <= a < |db.till.allocations| && db.till.allocations[a].target == TopupTarget(u) ==>
              && db.till.allocations[a].amount == db.wallets.topups[u].amount
              && db.till.allocations[a].payment < |db.till.payments|
              && db.till.payments[db.till.allocations[a].payment].confirmed
              && db.till.payments[db.till.allocations[a].payment].amount == db.wallets.topups[u].amount
  {
    assert Holds(TopupsMatch, db) && Holds(TillSound, db);
    forall a | 0 <= a < |db.till.allocations| && db.till.allocations[a].target == TopupTarget(u)
      ensures db.till.allocations[a].amount == db.wallets.topups[u].amount
      ensures db.till.allocations[a].payment < |db.till.payments|
      ensures db.till.payments[db.till.allocations[a].payment].confirmed
      ensures db.till.payments[db.till.allocations[a].payment].amount == db.wallets.topups[u].amount
    {
      assert TopupAllocationFits(db.till, db.wallets, a) && AllocationOk(db.till, a);
    }
  }

  /** The attempt log: apart from manual resolutions, every attempt number of a job
      has exactly one outcome, except the newest one exactly while the job is being
      sent; and the attempts stay within the maximum, which only manual retries raise. */
  lemma AttemptsAreLogged(actions: seq<Action>, j: nat)
    requires j < |Run(Empty(), actions).queue.jobs|
    ensures var q := Run(Empty(), actions).queue;
            var job := q.jobs[j];
            && (forall n: nat :: 1 <= n <= job.attempts ==>
                |Outcomes(q.attempts, j, n)| == (if IsSending(job) && n == job.attempts then 0 else 1))
            && (forall k :: k in q.attempts && k.job == j && k.status != ManualResolution ==>
                1 <= k.number <= job.attempts)
            && job.attempts <= job.maxAttempts <= job.granted + |Retries(q.attempts, j)|
            && (job.status == JobProcessing && !IsSending(job) ==> job.attempts < job.maxAttempts)
  {
    ReachableIsSound(actions);
    assert Holds(QueueSound, Run(Empty(), actions));
    assert JobOk(Run(Empty(), actions).queue.jobs[j], Run(Empty(), actions).queue.attempts, j);
  }

  /** The reconciliation queries in every reachable state. */
  lemma ReachableHasNoAnomalies(actions: seq<Action>)
    ensures var db := Run(Empty(), actions);
            && DeliveringWithoutJob(db) == {} && ActiveJobWrongOrder(db) == {} && CompletedJobNotDelivered(db) == {}
            && DeliveredInventoryMismatch(db) == {} && SoldWithoutCompletedJob(db) == {}
            && DeliveredOrderReservedInventory(db) == {}
            && MultipleActiveJobs(db.queue) == {} && SuccessEvidenceNotCompleted(db.queue) == {}
            && WalletMismatches(db.wallets) == {} && ReservationCountMismatches(db) == {}
  {
    ReachableIsSound(actions);
    NoDeliveryAnomalies(Run(Empty(), actions));
    FinancialAnomalies(Run(Empty(), actions));
  }

  // ---------- paying twice ----------

  /** After an order was paid from the wallet, any later attempt to pay it from the
      wallet, after any run, takes no money: it is a duplicate. */
  lemma WalletPaysOnce(db: Db, user: nat, o: nat, key: string, update: nat, terms: Terms,
                       actions: seq<Action>, key': string, update': nat, terms': Terms)
    requires PayOrder(db, user, o, key, update, terms).Ok?
             && !PayOrder(db, user, o, key, update, terms).value.1.duplicate
    requires PayOrder(Run(PayOrder(db, user, o, key, update, terms).value.0, actions), user, o, key', update',
                      terms').Ok?
    ensures var later := Run(PayOrder(db, user, o, key, update, terms).value.0, actions);
            var (db', result) := PayOrder(later, user, o, key', update', terms').value;
            && result.duplicate
            && db'.wallets.ledger == later.wallets.ledger
            && db' == later.(gate := db'.gate, wallets := db'.wallets)
  {
    var paid := PayOrder(db, user, o, key, update, terms).value.0;
    FirstPaymentIsRecorded(db, user, o, key, update, terms);
    WalletKeepsOrders(db, user, o, key, update, terms);
    PaidStaysRecorded(db, paid, user, o, actions);
    RepeatIsDuplicate(Run(paid, actions), user, o, key', update', terms');
  }

  lemma PaidStaysRecorded(db: Db, paid: Db, user: nat, o: nat, actions: seq<Action>)
    requires o < |db.sales.orders| && OrdersKept(db.sales, paid.sales)
    requires paid.till.payments == db.till.payments + [WalletPaymentRow(db.sales.orders[o], user, o)]
    ensures var later := Run(paid, actions);
            && o < |later.sales.orders|
            && FindPayment(later.till, WALLET, later.sales.orders[o].environment, WalletTransaction(o)).Some?
  {
    var p := |db.till.payments|;
    var later := Run(paid, actions);
    AllocationIsFinal(paid, actions, p);
    RunKeepsOrders(paid, actions);
    assert SameOrder(db.sales.orders[o], paid.sales.orders[o])
           && SameOrder(paid.sales.orders[o], later.sales.orders[o]);
    assert later.till.payments[p] == WalletPaymentRow(db.sales.orders[o], user, o);
    assert SameTransaction(later.till.payments[p], WALLET, later.sales.orders[o].environment, WalletTransaction(o));
  }

  lemma FirstPaymentIsRecorded(db: Db, user: nat, o: nat, key: string, update: nat, terms: Terms)
    requires PayOrder(db, user, o, key, update, terms).Ok?
             && !PayOrder(db, user, o, key, update, terms).value.1.duplicate
    ensures o < |db.sales.orders| && db.sales.orders[o].user == user
    ensures PayOrder(db, user, o, key, update, terms).value.0.till.payments ==
            db.till.payments + [WalletPaymentRow(db.sales.orders[o], user, o)]
  {
    var (ensured, account) := EnsureAccount(db.wallets, user);
    FromWalletMoney(db.(wallets := ensured), account, user, o, key, update, terms);
  }

  lemma RepeatIsDuplicate(db: Db, user: nat, o: nat, key: string, update: nat, terms: Terms)
    requires PayOrder(db, user, o, key, update, terms).Ok?
    requires FindPayment(db.till, WALLET, db.sales.orders[o].environment, WalletTransaction(o)).Some?
    ensures var (db', result) := PayOrder(db, user, o, key, update, terms).value;
            && result.duplicate
            && db'.wallets.ledger == db.wallets.ledger
            && db' == db.(gate := db'.gate, wallets := db'.wallets)
  {
  }
}
