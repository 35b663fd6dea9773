/** Every delivery transaction keeps the invariant. */
module DeliveryInvariant {
  import opened Results
  import opened Domain
  import opened Agreement
  import opened Database
  import opened Delivery
  import opened DeliveryAdmin
  import opened GateTable
  import opened QueueTable
  import opened SalesTable
  import opened StockTable

  /** The order of a job moves between two fulfilling statuses. */
  lemma FulfillingOrderMoves(s: Sales, o: nat, from: OrderStatus, to: OrderStatus, reason: string)
    requires SalesOk(s)
    requires o < |s.orders| && s.orders[o].status == from
    requires CanTransitionOrder(from, to)
    requires Fulfilling(from) && Fulfilling(to)
    ensures Move(s, o, from, to, reason).Ok?
    ensures SalesOk(Move(s, o, from, to, reason).value)
    ensures OnlyMoved(s, Move(s, o, from, to, reason).value, o)
    ensures Move(s, o, from, to, reason).value.orders[o].status == to
  {
    assert OrderOk(s, o);
    MoveKeepsPath(s, o, from, to, reason);
    SalesFrame(s, Move(s, o, from, to, reason).value, o);
  }

  /** A step that changes one job and no order. */
  lemma OnlyJobMoves(db: Db, q': Queue, j: nat)
    requires Inv(db)
    requires OnlyJob(db.queue, q', j)
    requires QueueOk(q')
    requires q'.jobs[j].status !in {JobCompleted, JobPermanentFailed, JobCancelled}
    requires db.queue.jobs[j].status !in {JobCompleted, JobPermanentFailed}
    ensures Inv(db.(queue := q'))
  {
    assert Holds(QueueSound, db) && Holds(JobsMatch, db);
    assert JobFits(db.sales, db.queue, j);
    JobRelabels(db.sales, db.queue, q', j);
    forall part
      ensures Holds(part, db.(queue := q'))
    {
      assert Holds(part, db);
    }
  }

  /** A job and its order move together between two fulfilling statuses, and the
      items move with them. */
  lemma JobAndOrderMove(db: Db, s': Sales, q': Queue, k': Stock, j: nat)
    requires Inv(db)
    requires j < |db.queue.jobs| && db.queue.jobs[j].order < |db.sales.orders|
    requires OnlyMoved(db.sales, s', db.queue.jobs[j].order) && SalesOk(s')
    requires OnlyJob(db.queue, q', j) && QueueOk(q')
    requires StatusFits(q'.jobs[j].status, s'.orders[db.queue.jobs[j].order].status)
    requires Fulfilling(db.sales.orders[db.queue.jobs[j].order].status)
    requires StockOk(k') && StockAgrees(s', k')
    ensures Inv(db.(sales := s', queue := q', stock := k'))
  {
    assert JobsAgree(s', q') by {
      assert Holds(QueueSound, db) && Holds(JobsMatch, db);
      JobMoves(db.sales, s', db.queue, q', j);
    }
    assert TillAgrees(s', db.till) by {
      assert Holds(PaymentsMatch, db);
      TillMoves(db.sales, s', db.till, db.till, db.queue.jobs[j].order);
    }
    assert DebitsAgree(s', db.till, db.wallets) by {
      assert Holds(DebitsMatch, db);
      DebitsKept(db.sales, s', db.till, db.till, db.wallets, db.wallets);
    }
    forall part
      ensures Holds(part, db.(sales := s', queue := q', stock := k'))
    {
      assert Holds(part, db);
    }
  }

  /** A failed delivery keeps its reserved items. */
  lemma JobFails(db: Db, s': Sales, q': Queue, j: nat)
    requires Inv(db)
    requires j < |db.queue.jobs| && db.queue.jobs[j].order < |db.sales.orders|
    requires OnlyMoved(db.sales, s', db.queue.jobs[j].order) && SalesOk(s')
    requires OnlyJob(db.queue, q', j) && QueueOk(q')
    requires db.sales.orders[db.queue.jobs[j].order].status in {Delivering, DeliveryFailed}
    requires s'.orders[db.queue.jobs[j].order].status in {Delivering, DeliveryFailed}
    requires StatusFits(q'.jobs[j].status, s'.orders[db.queue.jobs[j].order].status)
    ensures Inv(db.(sales := s', queue := q'))
  {
    assert StockAgrees(s', db.stock) by {
      assert Holds(HoldingsMatch, db);
      assert HoldsItsShare(db.sales, db.stock, db.queue.jobs[j].order);
      HoldingMoves(db.sales, s', db.stock, db.stock, db.queue.jobs[j].order);
    }
    assert Holds(StockSound, db);
    JobAndOrderMove(db, s', q', db.stock, j);
    assert db.(sales := s', queue := q', stock := db.stock) == db.(sales := s', queue := q');
  }

  /** Selling the items of a delivering order and marking it delivered. */
  lemma DeliveredHoldings(s: Sales, s': Sales, k: Stock, o: nat)
    requires StockOk(k) && StockAgrees(s, k)
    requires OnlyMoved(s, s', o)
    requires s.orders[o].status == Delivering && s'.orders[o].status == Delivered
    ensures SellExact(k, o, s.orders[o].quantity) == (Sell(k, o, ReservedBy(k, o)), ReservedBy(k, o))
    ensures |ReservedBy(k, o)| == s.orders[o].quantity
    ensures StockOk(Sell(k, o, ReservedBy(k, o)))
    ensures StockAgrees(s', Sell(k, o, ReservedBy(k, o)))
  {
    assert HoldsItsShare(s, k, o);
    DeliverableIsReserved(k, o);
    SellKeepsStock(k, o);
    assert {} + ReservedBy(k, o) == ReservedBy(k, o);
    HoldingMoves(s, s', k, Sell(k, o, ReservedBy(k, o)), o);
  }

  /** A job and its order become completed and delivered, and the items sold. */
  lemma JobCompletes(db: Db, s': Sales, q': Queue, j: nat)
    requires Inv(db)
    requires j < |db.queue.jobs| && db.queue.jobs[j].order < |db.sales.orders|
    requires OnlyMoved(db.sales, s', db.queue.jobs[j].order) && SalesOk(s')
    requires OnlyJob(db.queue, q', j) && QueueOk(q')
    requires db.sales.orders[db.queue.jobs[j].order].status == Delivering
    requires s'.orders[db.queue.jobs[j].order].status == Delivered
    requires q'.jobs[j].status == JobCompleted
    ensures var o := db.queue.jobs[j].order;
            Inv(db.(sales := s', queue := q', stock := SellExact(db.stock, o, db.sales.orders[o].quantity).0))
  {
    assert Holds(StockSound, db) && Holds(HoldingsMatch, db);
    var o := db.queue.jobs[j].order;
    DeliveredHoldings(db.sales, s', db.stock, o);
    JobAndOrderMove(db, s', q', SellExact(db.stock, o, db.sales.orders[o].quantity).0, j);
  }

  /** The gate is not part of the invariant. */
  lemma GateIsFree(db: Db, gate: Gate)
    requires Inv(db)
    ensures Inv(db.(gate := gate))
  {
    forall part
      ensures Holds(part, db.(gate := gate))
    {
      assert Holds(part, db);
    }
  }

  /** A delivery that was confirmed, however it was. */
  lemma DeliveredKeeps(db: Db, db': Db, j: nat, reason: string)
    requires Inv(db)
    requires j < |db.queue.jobs| && db.queue.jobs[j].order < |db.sales.orders|
    requires OnlyJob(db.queue, db'.queue, j) && QueueOk(db'.queue) && db'.queue.jobs[j].status == JobCompleted
    requires db.sales.orders[db.queue.jobs[j].order].status == Delivering
    requires Move(db.sales, db.queue.jobs[j].order, Delivering, Delivered, reason) == Ok(db'.sales)
    requires var o := db.queue.jobs[j].order;
             db' == db.(sales := db'.sales, queue := db'.queue, gate := db'.gate,
                        stock := SellExact(db.stock, o, db.sales.orders[o].quantity).0)
    ensures Inv(db')
  {
    assert Holds(SalesSound, db);
    FulfillingOrderMoves(db.sales, db.queue.jobs[j].order, Delivering, Delivered, reason);
    JobCompletes(db, db'.sales, db'.queue, j);
    GateIsFree(db'.(gate := db.gate), db'.gate);
  }

  /** A delivery that failed for good, or is tried again after that. */
  lemma FailedOrderKeeps(db: Db, db': Db, j: nat, from: OrderStatus, to: OrderStatus, reason: string)
    requires Inv(db)
    requires j < |db.queue.jobs| && db.queue.jobs[j].order < |db.sales.orders|
    requires OnlyJob(db.queue, db'.queue, j) && QueueOk(db'.queue) && StatusFits(db'.queue.jobs[j].status, to)
    requires (from, to) == (Delivering, DeliveryFailed) || (from, to) == (DeliveryFailed, Delivering)
    requires Move(db.sales, db.queue.jobs[j].order, from, to, reason) == Ok(db'.sales)
    requires db' == db.(sales := db'.sales, queue := db'.queue, gate := db'.gate)
    ensures Inv(db')
  {
    assert Holds(SalesSound, db);
    FulfillingOrderMoves(db.sales, db.queue.jobs[j].order, from, to, reason);
    JobFails(db, db'.sales, db'.queue, j);
    GateIsFree(db.(sales := db'.sales, queue := db'.queue), db'.gate);
  }

  // ---------- claims and stale recovery ----------

  lemma ClaimOneKeeps(db: Db, j: nat, worker: string, now: int)
    requires Inv(db)
    ensures Inv(db.(queue := ClaimOne(db.queue, j, worker, now)))
  {
    assert Holds(QueueSound, db);
    if j < |db.queue.jobs| && Due(db.queue.jobs[j], now) {
      RelabelKeepsQueue(db.queue, j,
                        db.queue.jobs[j].(status := JobProcessing, lock := Some(Lock(Claimed, worker, now))));
      OnlyJobMoves(db, ClaimOne(db.queue, j, worker, now), j);
    } else {
      assert db.(queue := ClaimOne(db.queue, j, worker, now)) == db;
    }
  }

  lemma {:induction false} ClaimKeeps(db: Db, picked: seq<nat>, worker: string, now: int)
    requires Inv(db)
    ensures Inv(db.(queue := ClaimJobs(db.queue, picked, worker, now)))
    decreases |picked|
  {
    if picked == [] {
      assert db.(queue := ClaimJobs(db.queue, picked, worker, now)) == db;
    } else {
      ClaimOneKeeps(db, picked[0], worker, now);
      ClaimKeeps(db.(queue := ClaimOne(db.queue, picked[0], worker, now)), picked[1..], worker, now);
    }
  }

  lemma RecoverOneQueue(q: Queue, j: nat, now: int)
    requires QueueOk(q)
    requires j < |q.jobs| && q.jobs[j].status == JobProcessing
    ensures RecoverOne(q, j, now).Ok?
    ensures var q' := RecoverOne(q, j, now).value;
            && OnlyJob(q, q', j) && QueueOk(q')
            && q'.jobs[j].status == (if IsSending(q.jobs[j]) then JobAmbiguous else JobRetryableFailed)
  {
    var job := q.jobs[j];
    assert JobOk(job, q.attempts, j);
    if IsSending(job) {
      FinishKeepsQueue(q, j, job.(status := JobAmbiguous, lock := None), FailedAmbiguous,
                       AttemptRow("stale_after_send_started", None));
    } else {
      RelabelKeepsQueue(q, j, job.(status := JobRetryableFailed, lock := None, nextAttemptAt := now));
    }
  }

  /** Stale recovery never fails: one bad row cannot block the others. */
  lemma {:induction false} RecoverKeeps(db: Db, picked: seq<nat>, now: int, staleBefore: int)
    requires Inv(db)
    ensures RecoverStale(db.queue, picked, now, staleBefore).Ok?
    ensures Inv(db.(queue := RecoverStale(db.queue, picked, now, staleBefore).value))
    decreases |picked|
  {
    assert Holds(QueueSound, db);
    if picked == [] {
      assert db.(queue := RecoverStale(db.queue, picked, now, staleBefore).value) == db;
    } else if picked[0] < |db.queue.jobs| && IsStale(db.queue.jobs[picked[0]], staleBefore) {
      RecoverOneQueue(db.queue, picked[0], now);
      OnlyJobMoves(db, RecoverOne(db.queue, picked[0], now).value, picked[0]);
      RecoverKeeps(db.(queue := RecoverOne(db.queue, picked[0], now).value), picked[1..], now, staleBefore);
    } else {
      RecoverKeeps(db, picked[1..], now, staleBefore);
    }
  }

  /** In every committed state no order waits in Reserving, so there is nothing
      to backfill. */
  lemma {:induction false} BackfillDoesNothing(db: Db, picked: seq<nat>, now: int, maxAttempts: nat)
    requires Inv(db)
    ensures Backfill(db, picked, now, maxAttempts) == Ok((db, 0))
    decreases |picked|
  {
    if picked == [] {
    } else {
      assert Holds(SalesSound, db);
      if picked[0] < |db.sales.orders| {
        assert OrderOk(db.sales, picked[0]);
      }
      BackfillDoesNothing(db, picked[1..], now, maxAttempts);
    }
  }

  // ---------- one delivery attempt ----------

  lemma BeginKeeps(db: Db, j: nat, worker: string)
    requires Inv(db)
    requires BeginAttempt(db, j, worker).Ok?
    ensures Inv(BeginAttempt(db, j, worker).value.0)
  {
    assert Holds(QueueSound, db);
    BeginKeepsQueue(db.queue, j, worker, AttemptRow("", None));
    OnlyJobMoves(db, BeginAttempt(db, j, worker).value.0.queue, j);
  }

  /** The parts of a confirmed send. */
  lemma SuccessShape(db: Db, j: nat, worker: string, evidence: Evidence)
    requires QueueOk(db.queue)
    requires FinalizeSuccess(db, j, worker, evidence).Ok?
    requires db.queue.jobs[j].status != JobCompleted
    ensures var db' := FinalizeSuccess(db, j, worker, evidence).value;
            var o := db.queue.jobs[j].order;
            && IsSendingBy(db.queue.jobs[j], worker)
            && OnlyJob(db.queue, db'.queue, j) && QueueOk(db'.queue)
            && db'.queue.jobs[j].status == JobCompleted
            && AttemptKey(j, db.queue.jobs[j].attempts, Succeeded) !in db.queue.attempts
            && db'.queue.attempts.Keys == db.queue.attempts.Keys + {AttemptKey(j, db.queue.jobs[j].attempts, Succeeded)}
            && o < |db.sales.orders| && db.sales.orders[o].status == Delivering
            && Move(db.sales, o, Delivering, Delivered, "telegram_delivery_confirmed") == Ok(db'.sales)
            && db' == db.(sales := db'.sales, queue := db'.queue,
                          stock := SellExact(db.stock, o, db.sales.orders[o].quantity).0)
  {
    FinishKeepsQueue(db.queue, j,
                     db.queue.jobs[j].(status := JobCompleted, lock := None, message := Some(evidence.message)),
                     Succeeded, AttemptRow("", Some(evidence.message)));
  }

  lemma SuccessKeeps(db: Db, j: nat, worker: string, evidence: Evidence)
    requires Inv(db)
    requires FinalizeSuccess(db, j, worker, evidence).Ok?
    ensures Inv(FinalizeSuccess(db, j, worker, evidence).value)
  {
    if db.queue.jobs[j].status != JobCompleted {
      assert Holds(QueueSound, db);
      SuccessShape(db, j, worker, evidence);
      DeliveredKeeps(db, FinalizeSuccess(db, j, worker, evidence).value, j, "telegram_delivery_confirmed");
    }
  }

  /** The job status a reported failure leads to. */
  function FailedStatus(result: ResultClass): DeliveryStatus {
    match result
    case Retryable => JobRetryableFailed
    case Permanent => JobPermanentFailed
    case _ => JobAmbiguous
  }

  /** The job row a reported failure writes. */
  function FailedJob(job: Job, failure: Failure): Job {
    job.(status := FailedStatus(failure.result), lock := None,
         nextAttemptAt := if failure.result == Retryable then failure.nextAttemptAt else job.nextAttemptAt)
  }

  lemma FailureWrites(db: Db, j: nat, worker: string, failure: Failure)
    requires FinalizeFailure(db, j, worker, failure).Ok?
    ensures j < |db.queue.jobs| && IsSendingBy(db.queue.jobs[j], worker) && failure.result != Success
    ensures FinalizeFailure(db, j, worker, failure).value.queue ==
            Put(db.queue, j, FailedJob(db.queue.jobs[j], failure)).(
              attempts := db.queue.attempts[
                AttemptKey(j, db.queue.jobs[j].attempts, FailureStatus(failure.result)) :=
                  AttemptRow(failure.code, None)])
  {
  }

  /** The queue after a reported failure: one job changes, and its newest attempt
      gets the outcome. */
  lemma FailureQueue(db: Db, j: nat, worker: string, failure: Failure)
    requires QueueOk(db.queue)
    requires FinalizeFailure(db, j, worker, failure).Ok?
    ensures var q' := FinalizeFailure(db, j, worker, failure).value.queue;
            && j < |db.queue.jobs| && IsSendingBy(db.queue.jobs[j], worker)
            && OnlyJob(db.queue, q', j) && QueueOk(q')
            && q'.jobs[j].status == FailedStatus(failure.result)
            && (failure.result == Retryable ==> q'.jobs[j].nextAttemptAt == failure.nextAttemptAt)
            && AttemptKey(j, db.queue.jobs[j].attempts, FailureStatus(failure.result)) !in db.queue.attempts
            && q'.attempts.Keys == db.queue.attempts.Keys
               + {AttemptKey(j, db.queue.jobs[j].attempts, FailureStatus(failure.result))}
  {
    FailureWrites(db, j, worker, failure);
    FinishKeepsQueue(db.queue, j, FailedJob(db.queue.jobs[j], failure), FailureStatus(failure.result),
                     AttemptRow(failure.code, None));
  }

  /** Only a permanent failure touches the order. */
  lemma FailureSales(db: Db, j: nat, worker: string, failure: Failure)
    requires FinalizeFailure(db, j, worker, failure).Ok?
    ensures failure.result != Success
    ensures var db' := FinalizeFailure(db, j, worker, failure).value;
            if failure.result == Permanent then
              && j < |db.queue.jobs| && db.queue.jobs[j].order < |db.sales.orders|
              && db.sales.orders[db.queue.jobs[j].order].status == Delivering
              && Move(db.sales, db.queue.jobs[j].order, Delivering, DeliveryFailed, failure.code) == Ok(db'.sales)
              && db' == db.(queue := db'.queue, sales := db'.sales)
            else db' == db.(queue := db'.queue)
  {
  }

  lemma FailureKeeps(db: Db, j: nat, worker: string, failure: Failure)
    requires Inv(db)
    requires FinalizeFailure(db, j, worker, failure).Ok?
    ensures Inv(FinalizeFailure(db, j, worker, failure).value)
  {
    assert Holds(QueueSound, db);
    var db' := FinalizeFailure(db, j, worker, failure).value;
    FailureQueue(db, j, worker, failure);
    FailureSales(db, j, worker, failure);
    if failure.result == Permanent {
      FailedOrderKeeps(db, db', j, Delivering, DeliveryFailed, failure.code);
    } else {
      OnlyJobMoves(db, db'.queue, j);
    }
  }

  /** The parts of a failure before the send. */
  lemma ClaimedFailureShape(db: Db, j: nat, worker: string, failure: Failure)
    requires QueueOk(db.queue)
    requires FinalizeClaimedFailure(db, j, worker, failure).Ok?
    ensures var db' := FinalizeClaimedFailure(db, j, worker, failure).value;
            && j < |db.queue.jobs| && IsClaimed(db.queue.jobs[j], worker)
            && OnlyJob(db.queue, db'.queue, j) && QueueOk(db'.queue)
            && db'.queue.jobs[j].status ==
               (if failure.result == Retryable then JobRetryableFailed else JobPermanentFailed)
            && db'.queue.jobs[j].nextAttemptAt == failure.nextAttemptAt
            && var key := AttemptKey(j, db.queue.jobs[j].attempts + 1, FailureStatus(failure.result));
            && key !in db.queue.attempts
            && AttemptKey(j, key.number, Started) !in db.queue.attempts
            && db'.queue.attempts.Keys == db.queue.attempts.Keys + {key}
            && if failure.result == Permanent then
                 && db.queue.jobs[j].order < |db.sales.orders|
                 && db.sales.orders[db.queue.jobs[j].order].status == Delivering
                 && Move(db.sales, db.queue.jobs[j].order, Delivering, DeliveryFailed, failure.code) == Ok(db'.sales)
                 && db' == db.(queue := db'.queue, sales := db'.sales)
               else db' == db.(queue := db'.queue)
  {
    var status := if failure.result == Retryable then JobRetryableFailed else JobPermanentFailed;
    assert JobOk(db.queue.jobs[j], db.queue.attempts, j);
    NextNumberIsFresh(db.queue.jobs[j], db.queue.attempts, j);
    ClaimedFailureKeepsQueue(db.queue, j, worker, status, failure.nextAttemptAt, FailureStatus(failure.result),
                             AttemptRow(failure.code, None));
  }

  /** Before the send, only the two classes the worker reports keep jobs and
      orders in agreement: any other one ends the job but not its order. */
  lemma ClaimedFailureKeeps(db: Db, j: nat, worker: string, failure: Failure)
    requires Inv(db)
    requires FinalizeClaimedFailure(db, j, worker, failure).Ok?
    ensures Inv(FinalizeClaimedFailure(db, j, worker, failure).value) <==> failure.result in {Retryable, Permanent}
  {
    assert Holds(QueueSound, db);
    var db' := FinalizeClaimedFailure(db, j, worker, failure).value;
    ClaimedFailureShape(db, j, worker, failure);
    match failure.result {
      case Retryable =>
        OnlyJobMoves(db, db'.queue, j);
      case Permanent =>
        FailedOrderKeeps(db, db', j, Delivering, DeliveryFailed, failure.code);
      case _ =>
        assert Holds(JobsMatch, db);
        assert JobFits(db.sales, db.queue, j);
        assert !JobFits(db'.sales, db'.queue, j);
        assert !Holds(JobsMatch, db');
    }
  }

  lemma PreserveQueue(q: Queue, j: nat, message: int, reason: string)
    requires QueueOk(q)
    requires PreserveAmbiguous(q, j, message, reason).Ok?
    requires q.jobs[j].status != JobCompleted
    ensures var q' := PreserveAmbiguous(q, j, message, reason).value;
            && OnlyJob(q, q', j) && QueueOk(q')
            && IsSending(q.jobs[j]) && q'.jobs[j].status == JobAmbiguous
            && AttemptKey(j, q.jobs[j].attempts, FailedAmbiguous) !in q.attempts
            && q'.attempts.Keys == q.attempts.Keys + {AttemptKey(j, q.jobs[j].attempts, FailedAmbiguous)}
  {
    FinishKeepsQueue(q, j, q.jobs[j].(status := JobAmbiguous, lock := None, message := Some(message)),
                     FailedAmbiguous, AttemptRow(reason, Some(message)));
  }

  lemma PreserveKeeps(db: Db, j: nat, message: int, reason: string)
    requires Inv(db)
    requires PreserveAmbiguous(db.queue, j, message, reason).Ok?
    ensures Inv(db.(queue := PreserveAmbiguous(db.queue, j, message, reason).value))
  {
    assert Holds(QueueSound, db);
    var q' := PreserveAmbiguous(db.queue, j, message, reason).value;
    if db.queue.jobs[j].status == JobCompleted {
      assert db.(queue := q') == db;
    } else {
      PreserveQueue(db.queue, j, message, reason);
      OnlyJobMoves(db, q', j);
    }
  }

  // ---------- manual resolution ----------

  lemma RetryShape(db: Db, ticket: Ticket, update: nat, j: nat, version: nat, now: int)
    requires QueueOk(db.queue)
    requires RetryDelivery(db, ticket, update, j, version, now).Ok?
    ensures var db' := RetryDelivery(db, ticket, update, j, version, now).value;
            && OnlyJob(db.queue, db'.queue, j) && QueueOk(db'.queue)
            && db'.queue.jobs[j].status == JobPending
            && db.queue.jobs[j].order < |db.sales.orders|
            && var o := db.queue.jobs[j].order;
            && db.sales.orders[o].status in {Delivering, DeliveryFailed}
            && (if db.sales.orders[o].status == Delivering then db'.sales == db.sales
                else Move(db.sales, o, DeliveryFailed, Delivering, "manual_redelivery_verified") == Ok(db'.sales))
            && db' == db.(sales := db'.sales, queue := db'.queue, gate := db'.gate)
  {
    RetryKeepsQueue(db.queue, j, version, now);
  }

  lemma RetryKeeps(db: Db, ticket: Ticket, update: nat, j: nat, version: nat, now: int)
    requires Inv(db)
    requires RetryDelivery(db, ticket, update, j, version, now).Ok?
    ensures Inv(RetryDelivery(db, ticket, update, j, version, now).value)
  {
    assert Holds(QueueSound, db);
    RetryShape(db, ticket, update, j, version, now);
    var o := db.queue.jobs[j].order;
    var db' := RetryDelivery(db, ticket, update, j, version, now).value;
    if db.sales.orders[o].status == DeliveryFailed {
      FailedOrderKeeps(db, db', j, DeliveryFailed, Delivering, "manual_redelivery_verified");
    } else {
      assert Holds(JobsMatch, db);
      assert JobFits(db.sales, db.queue, j);
      OnlyJobMoves(db, db'.queue, j);
      GateIsFree(db.(queue := db'.queue), db'.gate);
    }
  }

  lemma CompleteQueue(q: Queue, j: nat, version: nat, message: int, q': Queue)
    requires QueueOk(q)
    requires j < |q.jobs| && CompleteByHand(q, j, version, message) == Ok(q')
    ensures OnlyJob(q, q', j) && QueueOk(q') && q'.jobs[j].status == JobCompleted
  {
    CompleteKeepsQueue(q, j, version, message);
  }

  lemma CompleteShape(db: Db, ticket: Ticket, update: nat, j: nat, version: nat, message: int, now: int)
    requires CompleteDelivery(db, ticket, update, j, version, message, now).Ok?
    ensures var db' := CompleteDelivery(db, ticket, update, j, version, message, now).value;
            && j < |db.queue.jobs|
            && CompleteByHand(db.queue, j, version, message) == Ok(db'.queue)
            && db.queue.jobs[j].order < |db.sales.orders|
            && var o := db.queue.jobs[j].order;
            && db.sales.orders[o].status == Delivering
            && Move(db.sales, o, Delivering, Delivered, "manual_delivery_verified") == Ok(db'.sales)
            && SellAll(db, o) == Ok(db'.stock)
            && db' == db.(sales := db'.sales, queue := db'.queue, gate := db'.gate, stock := db'.stock)
  {
  }

  lemma CompleteKeeps(db: Db, ticket: Ticket, update: nat, j: nat, version: nat, message: int, now: int)
    requires Inv(db)
    requires CompleteDelivery(db, ticket, update, j, version, message, now).Ok?
    ensures Inv(CompleteDelivery(db, ticket, update, j, version, message, now).value)
  {
    assert Holds(QueueSound, db);
    CompleteShape(db, ticket, update, j, version, message, now);
    var db' := CompleteDelivery(db, ticket, update, j, version, message, now).value;
    CompleteQueue(db.queue, j, version, message, db'.queue);
    DeliveredKeeps(db, db', j, "manual_delivery_verified");
  }

  // ---------- handoff ----------

  /** The handoff of an order that was just paid and whose items were just
      claimed always creates its job. */
  lemma HandoffCreates(db: Db, o: nat, now: int, maxAttempts: nat)
    requires maxAttempts > 0
    requires o < |db.sales.orders| && db.sales.orders[o].status == Reserving
    requires db.sales.orders[o].user < |db.sales.users|
    requires db.sales.users[db.sales.orders[o].user].chat > 0
    requires db.sales.orders[o].quantity > 0
    requires |Deliverable(db.stock, o)| == db.sales.orders[o].quantity
    requires FindByOrder(db.queue, o).None?
    ensures Handoff(db, o, now, maxAttempts).Ok?
    ensures var chat := db.sales.users[db.sales.orders[o].user].chat;
            var queue := InsertJob(db.queue, o, maxAttempts, now, chat);
            var sales := Move(db.sales, o, Reserving, Delivering, "delivery_job_created");
            && queue.Some? && sales.Ok?
            && Handoff(db, o, now, maxAttempts).value == (db.(queue := queue.value, sales := sales.value), true)
  {
  }
}
