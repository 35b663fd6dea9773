/** The reconciliation queries as sets of offending rows, and what the invariant
    says about each of them. */
module Anomalies {
  import opened Results
  import opened Domain
  import opened Agreement
  import opened Database
  import opened QueueTable
  import opened SalesTable
  import opened StockTable
  import opened TillTable
  import opened WalletTable

  // ---------- CountDeliveryReconciliationAnomalies ----------

  predicate JobOfOrder(q: Queue, o: nat) {
    exists j :: 0 <= j < |q.jobs| && q.jobs[j].order == o
  }

  predicate CompletedJobOfOrder(q: Queue, o: nat) {
    exists j :: 0 <= j < |q.jobs| && q.jobs[j].order == o && q.jobs[j].status == JobCompleted
  }

  function DeliveringWithoutJob(db: Db): set<nat> {
    set o: nat | o < |db.sales.orders| && db.sales.orders[o].status == Delivering && !JobOfOrder(db.queue, o)
  }

  function ActiveJobWrongOrder(db: Db): set<nat> {
    set j: nat | j < |db.queue.jobs| && db.queue.jobs[j].order < |db.sales.orders|
                 && db.queue.jobs[j].status in {JobPending, JobProcessing, JobRetryableFailed}
                 && db.sales.orders[db.queue.jobs[j].order].status != Delivering
  }

  function CompletedJobNotDelivered(db: Db): set<nat> {
    set j: nat | j < |db.queue.jobs| && db.queue.jobs[j].order < |db.sales.orders|
                 && db.queue.jobs[j].status == JobCompleted
                 && db.sales.orders[db.queue.jobs[j].order].status != Delivered
  }

  function DeliveredInventoryMismatch(db: Db): set<nat> {
    set o: nat | o < |db.sales.orders| && db.sales.orders[o].status == Delivered
                 && |SoldTo(db.stock, o)| != db.sales.orders[o].quantity
  }

  function SoldWithoutCompletedJob(db: Db): set<nat> {
    set i: nat | i < |db.stock.items| && db.stock.items[i].state.Sold?
                 && !CompletedJobOfOrder(db.queue, db.stock.items[i].state.order)
  }

  function DeliveredOrderReservedInventory(db: Db): set<nat> {
    set i: nat | i < |db.stock.items| && db.stock.items[i].state.Reserved?
                 && db.stock.items[i].state.order < |db.sales.orders|
                 && db.sales.orders[db.stock.items[i].state.order].status == Delivered
  }

  predicate Active(status: DeliveryStatus) {
    status in {JobPending, JobProcessing, JobRetryableFailed, JobAmbiguous, JobManualReview}
  }

  /** Pairs of active jobs of one order. */
  function MultipleActiveJobs(q: Queue): set<(nat, nat)> {
    set j: nat, i: nat | j < |q.jobs| && i < j && q.jobs[j].order == q.jobs[i].order
                         && Active(q.jobs[j].status) && Active(q.jobs[i].status) :: (i, j)
  }

  function SuccessEvidenceNotCompleted(q: Queue): set<AttemptKey> {
    set k | k in q.attempts && k.status == Succeeded && k.job < |q.jobs|
            && q.attempts[k].message.Some? && q.jobs[k.job].status != JobCompleted
  }

  lemma JobAnomalies(db: Db)
    requires JobsAgree(db.sales, db.queue)
    ensures DeliveringWithoutJob(db) == {}
    ensures ActiveJobWrongOrder(db) == {}
    ensures CompletedJobNotDelivered(db) == {}
  {
    forall o: nat | o < |db.sales.orders| && db.sales.orders[o].status == Delivering
      ensures JobOfOrder(db.queue, o)
    {
      assert HasJob(db.queue, o);
      assert db.queue.jobs[FindByOrder(db.queue, o).value].order == o;
    }
    forall j: nat | j < |db.queue.jobs|
      ensures j !in ActiveJobWrongOrder(db) && j !in CompletedJobNotDelivered(db)
    {
      assert JobFits(db.sales, db.queue, j);
    }
  }

  lemma HoldingAnomalies(db: Db)
    requires StockAgrees(db.sales, db.stock)
    ensures DeliveredInventoryMismatch(db) == {}
    ensures DeliveredOrderReservedInventory(db) == {}
  {
    forall o: nat | o < |db.sales.orders|
      ensures o !in DeliveredInventoryMismatch(db)
    {
      assert HoldsItsShare(db.sales, db.stock, o);
    }
    forall i: nat | i < |db.stock.items|
      ensures i !in DeliveredOrderReservedInventory(db)
    {
      if db.stock.items[i].state.Reserved? {
        assert HoldsItsShare(db.sales, db.stock, db.stock.items[i].state.order);
        assert i in ReservedBy(db.stock, db.stock.items[i].state.order);
      }
    }
  }

  /** Whoever bought an item is delivered, and so has a completed job. */
  lemma SoldIsDelivered(db: Db, i: nat)
    requires StockAgrees(db.sales, db.stock) && JobsAgree(db.sales, db.queue)
    requires i < |db.stock.items| && db.stock.items[i].state.Sold?
    ensures db.stock.items[i].state.order < |db.sales.orders|
    ensures db.sales.orders[db.stock.items[i].state.order].status == Delivered
    ensures CompletedJobOfOrder(db.queue, db.stock.items[i].state.order)
  {
    var o := db.stock.items[i].state.order;
    assert HoldsItsShare(db.sales, db.stock, o);
    assert i in SoldTo(db.stock, o);
    assert HasJob(db.queue, o);
    var j := FindByOrder(db.queue, o).value;
    assert JobFits(db.sales, db.queue, j);
    assert db.queue.jobs[j].order == o && db.queue.jobs[j].status == JobCompleted;
  }

  /** Eight of the ten delivery anomaly counts are zero in every committed state. */
  lemma NoDeliveryAnomalies(db: Db)
    requires Inv(db)
    ensures DeliveringWithoutJob(db) == {}
    ensures ActiveJobWrongOrder(db) == {}
    ensures CompletedJobNotDelivered(db) == {}
    ensures DeliveredInventoryMismatch(db) == {}
    ensures SoldWithoutCompletedJob(db) == {}
    ensures DeliveredOrderReservedInventory(db) == {}
    ensures MultipleActiveJobs(db.queue) == {}
    ensures SuccessEvidenceNotCompleted(db.queue) == {}
  {
    assert Holds(QueueSound, db) && Holds(JobsMatch, db) && Holds(HoldingsMatch, db);
    JobAnomalies(db);
    HoldingAnomalies(db);
    forall i: nat | i < |db.stock.items| && db.stock.items[i].state.Sold?
      ensures CompletedJobOfOrder(db.queue, db.stock.items[i].state.order)
    {
      SoldIsDelivered(db, i);
    }
    forall k | k in db.queue.attempts && k.status == Succeeded && k.job < |db.queue.jobs|
      ensures db.queue.jobs[k.job].status == JobCompleted
    {
      assert JobOk(db.queue.jobs[k.job], db.queue.attempts, k.job);
    }
  }

  // ---------- GetFinancialReconciliation ----------

  predicate HasOpenCase(t: Till, p: nat) {
    exists r :: 0 <= r < |t.reviews| && t.reviews[r].payment == Some(p) && t.reviews[r].status in {Open, Held}
  }

  function ConfirmedWithoutOutcome(t: Till): set<nat> {
    set p: nat | p < |t.payments| && t.payments[p].confirmed && FindAllocation(t, p).None? && !HasOpenCase(t, p)
  }

  function WalletMismatches(w: Wallets): set<nat> {
    set a: nat | a < |w.accounts| && w.accounts[a].balance != SumOf(w.ledger, a)
  }

  function ActiveMappingsOf(k: Stock, o: nat): set<(nat, nat)> {
    set m | m in k.mappings && m.0 == o && k.mappings[m] == StockTable.Active
  }

  function ReservationCountMismatches(db: Db): set<nat> {
    set o: nat | o < |db.sales.orders| && db.sales.orders[o].status == Reserving
                 && |ActiveMappingsOf(db.stock, o)| != db.sales.orders[o].quantity
  }

  predicate OnlyResolvedCases(t: Till, p: nat) {
    && (exists r :: 0 <= r < |t.reviews| && t.reviews[r].payment == Some(p))
    && (forall r :: 0 <= r < |t.reviews| && t.reviews[r].payment == Some(p) ==> t.reviews[r].status == Resolved)
  }

  /** The balance and reservation counts are zero in every committed state. A
      confirmed payment is reported without an outcome exactly when it was never
      allocated and every case about it has been resolved. */
  lemma FinancialAnomalies(db: Db)
    requires Inv(db)
    ensures WalletMismatches(db.wallets) == {}
    ensures ReservationCountMismatches(db) == {}
    ensures forall p :: p in ConfirmedWithoutOutcome(db.till) <==>
              && 0 <= p < |db.till.payments| && db.till.payments[p].confirmed
              && FindAllocation(db.till, p).None? && OnlyResolvedCases(db.till, p)
  {
    assert Holds(WalletsSound, db) && Holds(SalesSound, db) && Holds(TillSound, db);
    forall o: nat | o < |db.sales.orders|
      ensures db.sales.orders[o].status != Reserving
    {
      assert OrderOk(db.sales, o);
    }
    forall p: nat | p < |db.till.payments| && FindAllocation(db.till, p).None?
      ensures !HasOpenCase(db.till, p) <==> OnlyResolvedCases(db.till, p)
    {
      assert Allocated(db.till, p) || UnderReview(db.till, p);
    }
  }
}
