/** What the delivery transactions do, said on the rows: when they commit, and every
    row they write. */
module DeliveryOutcomes {
  import opened Results
  import opened Domain
  import opened Agreement
  import opened Database
  import opened Delivery
  import opened DeliveryAdmin
  import opened DeliveryInvariant
  import opened GateOutcomes
  import opened GateTable
  import opened QueueTable
  import opened SalesTable
  import opened StockTable

  // ---------- rows ----------

  /** An order goes on to a status, one version and one history row further. */
  function MovedOn(s: Sales, o: nat, to: OrderStatus, reason: string): Sales
    requires o < |s.orders|
  {
    var order := s.orders[o];
    var earlier := if o in s.history then s.history[o] else [];
    s.(orders := s.orders[o := order.(status := to, version := order.version + 1)],
       history := s.history[o := earlier + [HistoryRow(Some(order.status), to, reason)]])
  }

  /** Exactly the items reserved for the order become sold to it. */
  ghost predicate ItemsSold(k: Stock, k': Stock, o: nat) {
    && k'.mappings == k.mappings && |k'.items| == |k.items|
    && forall i :: 0 <= i < |k.items| ==>
         k'.items[i] == if k.items[i].state.Reserved? && k.items[i].state.order == o then
                          k.items[i].(state := StockTable.Sold(o), version := k.items[i].version + 1)
                        else k.items[i]
  }

  /** One job row and one log row are written. */
  function Logged(q: Queue, j: nat, job: Job, number: nat, outcome: AttemptStatus, row: AttemptRow): Queue
    requires j < |q.jobs|
  {
    Queue(q.jobs[j := job.(version := q.jobs[j].version + 1)], q.attempts[AttemptKey(j, number, outcome) := row])
  }

  predicate ClaimedBy(job: Job, worker: string) {
    job.status == JobProcessing && job.lock.Some? && job.lock.value.stage == Claimed && job.lock.value.worker == worker
  }

  predicate SentBy(job: Job, worker: string) {
    job.status == JobProcessing && job.lock.Some? && job.lock.value.stage == Sending && job.lock.value.worker == worker
  }

  // ---------- handoff ----------

  /** A paid order is handed over if and only if it is reserving its whole quantity for
      a customer who can be reached; it gets one job with the whole budget, due at
      once, and goes on to delivering. */
  lemma HandoffIsExact(db: Db, o: nat, now: int, maxAttempts: nat)
    requires StockOk(db.stock)
    requires o < |db.sales.orders| && db.sales.orders[o].user < |db.sales.users|
    requires forall j :: 0 <= j < |db.queue.jobs| ==> db.queue.jobs[j].order != o
    ensures var order := db.sales.orders[o];
            var chat := db.sales.users[order.user].chat;
            && (Handoff(db, o, now, maxAttempts).Ok? <==>
                && maxAttempts > 0 && order.status == Reserving && chat > 0 && order.quantity > 0
                && |ReservedBy(db.stock, o)| == order.quantity)
            && (Handoff(db, o, now, maxAttempts).Ok? ==>
                  Handoff(db, o, now, maxAttempts).value ==
                  (db.(sales := MovedOn(db.sales, o, Delivering, "delivery_job_created"),
                       queue := Queue(db.queue.jobs + [Job(o, chat, JobPending, None, 0, maxAttempts, now, None,
                                                           NoResolution, 1, maxAttempts)], db.queue.attempts)), true))
  {
    DeliverableIsReserved(db.stock, o);
  }

  // ---------- loading and sending ----------

  /** A worker may send the content of a job if and only if the job is still its claim
      and the order is delivering to the same chat with exactly its items. */
  lemma LoadingIsExact(db: Db, j: nat, worker: string)
    requires StockOk(db.stock)
    ensures LoadClaimed(db, j, worker) == Pass <==>
              && j < |db.queue.jobs| && ClaimedBy(db.queue.jobs[j], worker)
              && var job := db.queue.jobs[j];
              && job.order < |db.sales.orders| && db.sales.orders[job.order].user < |db.sales.users|
              && var order := db.sales.orders[job.order];
              && order.status == Delivering && db.sales.users[order.user].chat == job.recipient
              && order.quantity > 0 && |ReservedBy(db.stock, job.order)| == order.quantity
  {
    if j < |db.queue.jobs| {
      DeliverableIsReserved(db.stock, db.queue.jobs[j].order);
    }
  }

  /** In a sound state a send begins if and only if the job is the worker's claim; it
      opens the next attempt number, with its log row, and touches nothing else. */
  lemma BeginIsExact(db: Db, j: nat, worker: string)
    requires Inv(db)
    ensures BeginAttempt(db, j, worker).Ok? <==> j < |db.queue.jobs| && ClaimedBy(db.queue.jobs[j], worker)
    ensures BeginAttempt(db, j, worker).Err? ==> BeginAttempt(db, j, worker) == Err(DeliveryLeaseLost)
    ensures BeginAttempt(db, j, worker).Ok? ==>
              var job := db.queue.jobs[j];
              var sending := job.(lock := Some(Lock(Sending, worker, job.lock.value.at)), attempts := job.attempts + 1);
              BeginAttempt(db, j, worker).value ==
              (db.(queue := Logged(db.queue, j, sending, job.attempts + 1, Started, AttemptRow("", None))),
               job.attempts + 1)
  {
    assert Holds(QueueSound, db);
    if j < |db.queue.jobs| && IsClaimed(db.queue.jobs[j], worker) {
      assert JobOk(db.queue.jobs[j], db.queue.attempts, j);
      NextNumberIsFresh(db.queue.jobs[j], db.queue.attempts, j);
    }
  }

  // ---------- the end of an attempt ----------

  /** In a sound state the order of a job that is sending, or waits for a person, is
      delivering, and the sale finds exactly its items. */
  lemma OrderIsReady(db: Db, j: nat)
    requires Inv(db)
    requires j < |db.queue.jobs| && db.queue.jobs[j].status !in {JobCompleted, JobPermanentFailed}
    ensures var o := db.queue.jobs[j].order;
            && o < |db.sales.orders| && db.sales.orders[o].status == Delivering
            && |SellExact(db.stock, o, db.sales.orders[o].quantity).1| == db.sales.orders[o].quantity
            && ItemsSold(db.stock, SellExact(db.stock, o, db.sales.orders[o].quantity).0, o)
  {
    assert Holds(JobsMatch, db) && Holds(HoldingsMatch, db) && Holds(StockSound, db);
    assert JobFits(db.sales, db.queue, j);
    var o := db.queue.jobs[j].order;
    assert HoldsItsShare(db.sales, db.stock, o);
    DeliverableIsReserved(db.stock, o);
  }

  lemma NewestHasNoOutcome(q: Queue, j: nat, outcome: AttemptStatus)
    requires QueueOk(q) && j < |q.jobs| && IsSending(q.jobs[j]) && outcome in OUTCOMES
    ensures AttemptKey(j, q.jobs[j].attempts, outcome) !in q.attempts
  {
    assert JobOk(q.jobs[j], q.attempts, j);
    assert outcome !in Outcomes(q.attempts, j, q.jobs[j].attempts);
  }

  /** Trusted evidence from the owner of a send is never refused: neither the items
      nor the log can stand in its way. Then the job is completed with the message of
      the evidence, which is logged too, the order is delivered and its items are sold;
      for a completed job nothing happens. */
  lemma ConfirmationIsExact(db: Db, j: nat, worker: string, evidence: Evidence)
    requires Inv(db)
    ensures var r := FinalizeSuccess(db, j, worker, evidence);
            && (r.Ok? <==>
                && j < |db.queue.jobs|
                && (db.queue.jobs[j].status == JobCompleted
                    || (SentBy(db.queue.jobs[j], worker)
                        && evidence.chat == db.queue.jobs[j].recipient && evidence.message > 0)))
            && (r.Ok? && db.queue.jobs[j].status == JobCompleted ==> r.value == db)
            && (r.Ok? && db.queue.jobs[j].status != JobCompleted ==>
                  var job := db.queue.jobs[j];
                  && job.order < |db.sales.orders|
                  && r.value == db.(
                       queue := Logged(db.queue, j,
                                       job.(status := JobCompleted, lock := None, message := Some(evidence.message)),
                                       job.attempts, Succeeded, AttemptRow("", Some(evidence.message))),
                       sales := MovedOn(db.sales, job.order, Delivered, "telegram_delivery_confirmed"),
                       stock := r.value.stock)
                  && ItemsSold(db.stock, r.value.stock, job.order))
  {
    if j < |db.queue.jobs| && SentBy(db.queue.jobs[j], worker) {
      assert Holds(QueueSound, db);
      OrderIsReady(db, j);
      NewestHasNoOutcome(db.queue, j, Succeeded);
      if evidence.chat == db.queue.jobs[j].recipient && evidence.message > 0 {
        ConfirmationWrites(db, j, worker, evidence);
      }
    }
  }

  lemma ConfirmationWrites(db: Db, j: nat, worker: string, evidence: Evidence)
    requires j < |db.queue.jobs| && SentBy(db.queue.jobs[j], worker)
    requires evidence.chat == db.queue.jobs[j].recipient && evidence.message > 0
    requires AttemptKey(j, db.queue.jobs[j].attempts, Succeeded) !in db.queue.attempts
    requires var o := db.queue.jobs[j].order;
             && o < |db.sales.orders| && db.sales.orders[o].status == Delivering
             && |SellExact(db.stock, o, db.sales.orders[o].quantity).1| == db.sales.orders[o].quantity
    ensures var job := db.queue.jobs[j];
            FinalizeSuccess(db, j, worker, evidence) == Ok(db.(
              queue := Logged(db.queue, j,
                              job.(status := JobCompleted, lock := None, message := Some(evidence.message)),
                              job.attempts, Succeeded, AttemptRow("", Some(evidence.message))),
              sales := MovedOn(db.sales, job.order, Delivered, "telegram_delivery_confirmed"),
              stock := SellExact(db.stock, job.order, db.sales.orders[job.order].quantity).0))
  {
    MoveWrites(db.sales, db.queue.jobs[j].order, Delivered, "telegram_delivery_confirmed");
  }

  lemma MoveWrites(s: Sales, o: nat, to: OrderStatus, reason: string)
    requires o < |s.orders|
    ensures Move(s, o, s.orders[o].status, to, reason) == Ok(MovedOn(s, o, to, reason))
  {
  }

  /** The job row of a failed attempt. */
  function FailedRow(job: Job, failure: Failure): Job {
    match failure.result
    case Retryable => job.(status := JobRetryableFailed, lock := None, nextAttemptAt := failure.nextAttemptAt)
    case Permanent => job.(status := JobPermanentFailed, lock := None)
    case _ => job.(status := JobAmbiguous, lock := None)
  }

  function OutcomeOf(result: ResultClass): AttemptStatus {
    match result
    case Retryable => FailedRetryable
    case Permanent => FailedPermanent
    case _ => FailedAmbiguous
  }

  /** A failure is accepted from the owner of the send, and from nobody else. It is
      logged with its code; a permanent one also fails the order, for that code. */
  lemma FailureIsExact(db: Db, j: nat, worker: string, failure: Failure)
    requires Inv(db)
    ensures var r := FinalizeFailure(db, j, worker, failure);
            && (r.Ok? <==> j < |db.queue.jobs| && SentBy(db.queue.jobs[j], worker) && failure.result != Success)
            && (r.Ok? ==>
                  var job := db.queue.jobs[j];
                  && job.order < |db.sales.orders|
                  && r.value == db.(
                       queue := Logged(db.queue, j, FailedRow(job, failure), job.attempts, OutcomeOf(failure.result),
                                       AttemptRow(failure.code, None)),
                       sales := if failure.result == Permanent then
                                  MovedOn(db.sales, job.order, DeliveryFailed, failure.code)
                                else db.sales))
  {
    if j < |db.queue.jobs| && SentBy(db.queue.jobs[j], worker) {
      assert Holds(QueueSound, db);
      OrderIsReady(db, j);
      NewestHasNoOutcome(db.queue, j, OutcomeOf(failure.result));
      if failure.result != Success {
        FailureWritesRows(db, j, worker, failure);
      }
    }
  }

  lemma FailureWritesRows(db: Db, j: nat, worker: string, failure: Failure)
    requires j < |db.queue.jobs| && SentBy(db.queue.jobs[j], worker) && failure.result != Success
    requires AttemptKey(j, db.queue.jobs[j].attempts, OutcomeOf(failure.result)) !in db.queue.attempts
    requires var o := db.queue.jobs[j].order; o < |db.sales.orders| && db.sales.orders[o].status == Delivering
    ensures var job := db.queue.jobs[j];
            FinalizeFailure(db, j, worker, failure) == Ok(db.(
              queue := Logged(db.queue, j, FailedRow(job, failure), job.attempts, OutcomeOf(failure.result),
                              AttemptRow(failure.code, None)),
              sales := if failure.result == Permanent then
                         MovedOn(db.sales, job.order, DeliveryFailed, failure.code)
                       else db.sales))
  {
    MoveWrites(db.sales, db.queue.jobs[j].order, DeliveryFailed, failure.code);
  }

  /** A failure before the send is accepted from the worker that claimed the job, and
      uses up the next attempt number: a retryable one waits for its time, any other
      ends the job, and a permanent one also fails the order. */
  lemma EarlyFailureIsExact(db: Db, j: nat, worker: string, failure: Failure)
    requires Inv(db)
    ensures var r := FinalizeClaimedFailure(db, j, worker, failure);
            && (r.Ok? <==> j < |db.queue.jobs| && ClaimedBy(db.queue.jobs[j], worker))
            && (r.Ok? ==>
                  var job := db.queue.jobs[j];
                  var ended := job.(
                    status := if failure.result == Retryable then JobRetryableFailed else JobPermanentFailed,
                    lock := None, attempts := job.attempts + 1, nextAttemptAt := failure.nextAttemptAt);
                  && job.order < |db.sales.orders|
                  && r.value == db.(
                       queue := Logged(db.queue, j, ended, job.attempts + 1, OutcomeOf(failure.result),
                                       AttemptRow(failure.code, None)),
                       sales := if failure.result == Permanent then
                                  MovedOn(db.sales, job.order, DeliveryFailed, failure.code)
                                else db.sales))
  {
    if j < |db.queue.jobs| && ClaimedBy(db.queue.jobs[j], worker) {
      assert Holds(QueueSound, db);
      OrderIsReady(db, j);
      assert JobOk(db.queue.jobs[j], db.queue.attempts, j);
      NextNumberIsFresh(db.queue.jobs[j], db.queue.attempts, j);
      EarlyFailureWrites(db, j, worker, failure);
    }
  }

  lemma EarlyFailureWrites(db: Db, j: nat, worker: string, failure: Failure)
    requires j < |db.queue.jobs| && ClaimedBy(db.queue.jobs[j], worker)
    requires db.queue.jobs[j].attempts < db.queue.jobs[j].maxAttempts
    requires AttemptKey(j, db.queue.jobs[j].attempts + 1, OutcomeOf(failure.result)) !in db.queue.attempts
    requires var o := db.queue.jobs[j].order; o < |db.sales.orders| && db.sales.orders[o].status == Delivering
    ensures var job := db.queue.jobs[j];
            var ended := job.(
              status := if failure.result == Retryable then JobRetryableFailed else JobPermanentFailed,
              lock := None, attempts := job.attempts + 1, nextAttemptAt := failure.nextAttemptAt);
            FinalizeClaimedFailure(db, j, worker, failure) == Ok(db.(
              queue := Logged(db.queue, j, ended, job.attempts + 1, OutcomeOf(failure.result),
                              AttemptRow(failure.code, None)),
              sales := if failure.result == Permanent then
                         MovedOn(db.sales, job.order, DeliveryFailed, failure.code)
                       else db.sales))
  {
    MoveWrites(db.sales, db.queue.jobs[j].order, DeliveryFailed, failure.code);
  }

  /** An unconfirmed success is preserved if and only if the job is still sending, by
      whomever, or completed. The message stays with the job and in the log. */
  lemma PreservationIsExact(q: Queue, j: nat, message: int, reason: string)
    requires QueueOk(q)
    ensures var r := PreserveAmbiguous(q, j, message, reason);
            && (r.Ok? <==>
                && j < |q.jobs|
                && (q.jobs[j].status == JobCompleted
                    || (q.jobs[j].lock.Some? && SentBy(q.jobs[j], q.jobs[j].lock.value.worker))))
            && (r.Ok? && q.jobs[j].status == JobCompleted ==> r.value == q)
            && (r.Ok? && q.jobs[j].status != JobCompleted ==>
                  r.value == Logged(q, j, q.jobs[j].(status := JobAmbiguous, lock := None, message := Some(message)),
                                    q.jobs[j].attempts, FailedAmbiguous, AttemptRow(reason, Some(message))))
  {
    if j < |q.jobs| && IsSending(q.jobs[j]) {
      NewestHasNoOutcome(q, j, FailedAmbiguous);
    }
  }

  // ---------- administrators ----------

  /** Nobody resolved the present attempt of the job by hand yet. */
  predicate Unresolved(q: Queue, j: nat)
    requires j < |q.jobs|
  {
    AttemptKey(j, q.jobs[j].attempts + 1, ManualResolution) !in q.attempts
  }

  /** A manual completion commits if and only if the ticket entitles to it and the
      update is being processed, the job waits for a person at the version that was
      seen, and this attempt was not resolved before. Then the job is completed with
      the given message, the order is delivered and its items are sold. */
  lemma CompletionIsExact(db: Db, ticket: Ticket, update: nat, j: nat, version: nat, message: int, now: int)
    requires Inv(db)
    ensures var r := CompleteDelivery(db, ticket, update, j, version, message, now);
            && (r.Ok? <==>
                && Entitled(db.gate, ticket, "delivery.complete", now) && BeingProcessed(db.gate, update)
                && j < |db.queue.jobs| && db.queue.jobs[j].version == version
                && db.queue.jobs[j].status in {JobAmbiguous, JobManualReview} && Unresolved(db.queue, j))
            && (r.Ok? ==>
                  && CompletedByHand(db, r.value.(gate := db.gate), j, message)
                  && r.value.gate == Used(db.gate, ticket, "completed", now, update))
  {
    UseIsExact(db.gate, ticket, "delivery.complete", update, now);
    HandDeliveryIsExact(db, j, version, message);
  }

  /** The job is completed by hand with the message, the order delivered, the items sold. */
  ghost predicate CompletedByHand(db: Db, db': Db, j: nat, message: int)
    requires j < |db.queue.jobs|
  {
    var job := db.queue.jobs[j];
    var completed := job.(status := JobCompleted, message := Some(message), resolution := MarkedDelivered);
    && job.order < |db.sales.orders|
    && db' == db.(
         queue := Logged(db.queue, j, completed, job.attempts + 1, ManualResolution,
                         AttemptRow("verified_delivered", Some(message))),
         sales := MovedOn(db.sales, job.order, Delivered, "manual_delivery_verified"),
         stock := db'.stock)
    && ItemsSold(db.stock, db'.stock, job.order)
  }

  lemma HandDeliveryIsExact(db: Db, j: nat, version: nat, message: int)
    requires Inv(db)
    ensures var r := DeliverByHand(db, j, version, message);
            && (r.Ok? <==>
                && j < |db.queue.jobs| && db.queue.jobs[j].version == version
                && db.queue.jobs[j].status in {JobAmbiguous, JobManualReview} && Unresolved(db.queue, j))
            && (r.Ok? ==> CompletedByHand(db, r.value, j, message))
  {
    if j >= |db.queue.jobs| || db.queue.jobs[j].status !in {JobAmbiguous, JobManualReview} {
      NobodyWaits(db, j, version, message);
    } else {
      OrderIsReady(db, j);
      HandWrites(db, j, version, message);
    }
  }

  lemma NobodyWaits(db: Db, j: nat, version: nat, message: int)
    requires j >= |db.queue.jobs| || db.queue.jobs[j].status !in {JobAmbiguous, JobManualReview}
    ensures DeliverByHand(db, j, version, message).Err?
  {
  }

  lemma HandWrites(db: Db, j: nat, version: nat, message: int)
    requires j < |db.queue.jobs| && db.queue.jobs[j].status in {JobAmbiguous, JobManualReview}
    requires var o := db.queue.jobs[j].order;
             && o < |db.sales.orders| && db.sales.orders[o].status == Delivering
             && |SellExact(db.stock, o, db.sales.orders[o].quantity).1| == db.sales.orders[o].quantity
             && ItemsSold(db.stock, SellExact(db.stock, o, db.sales.orders[o].quantity).0, o)
    ensures var r := DeliverByHand(db, j, version, message);
            && (r.Ok? <==> db.queue.jobs[j].version == version && Unresolved(db.queue, j))
            && (r.Ok? ==> CompletedByHand(db, r.value, j, message))
  {
    HandCompletes(db.queue, j, version, message);
    MoveWrites(db.sales, db.queue.jobs[j].order, Delivered, "manual_delivery_verified");
  }

  lemma HandCompletes(q: Queue, j: nat, version: nat, message: int)
    requires j < |q.jobs|
    ensures CompleteByHand(q, j, version, message) ==
            if q.jobs[j].version == version && q.jobs[j].status in {JobAmbiguous, JobManualReview} then
              if Unresolved(q, j) then
                Ok(Logged(q, j, q.jobs[j].(status := JobCompleted, message := Some(message),
                                           resolution := MarkedDelivered),
                          q.jobs[j].attempts + 1, ManualResolution, AttemptRow("verified_delivered", Some(message))))
              else Err(Constraint)
            else Err(NoRows)
  {
  }

  /** The job row after a manual retry: pending and due at once, with room for at least
      one more attempt. */
  function RetriedRow(job: Job, now: int): Job {
    job.(status := JobPending, nextAttemptAt := now, resolution := RetryRequested,
         maxAttempts := if job.attempts < job.maxAttempts then job.maxAttempts else job.attempts + 1)
  }

  /** A manual retry commits if and only if the ticket entitles to it and the update is
      being processed, the job failed or its outcome is unknown, at the version that
      was seen, and this attempt was not resolved before. Then the job is pending and
      due at once, and a failed order delivers again. */
  lemma RetryIsExact(db: Db, ticket: Ticket, update: nat, j: nat, version: nat, now: int)
    requires Inv(db)
    ensures var r := RetryDelivery(db, ticket, update, j, version, now);
            && (r.Ok? <==>
                && Entitled(db.gate, ticket, "delivery.retry", now) && BeingProcessed(db.gate, update)
                && j < |db.queue.jobs| && db.queue.jobs[j].version == version
                && db.queue.jobs[j].status in {JobAmbiguous, JobManualReview, JobPermanentFailed, JobRetryableFailed}
                && Unresolved(db.queue, j))
            && (r.Ok? ==>
                  var job := db.queue.jobs[j];
                  && job.order < |db.sales.orders| && job.lock.None?
                  && r.value == db.(
                       queue := Logged(db.queue, j, RetriedRow(job, now), job.attempts + 1, ManualResolution,
                                       AttemptRow("verified_not_delivered", None)),
                       sales := if db.sales.orders[job.order].status == DeliveryFailed then
                                  MovedOn(db.sales, job.order, Delivering, "manual_redelivery_verified")
                                else db.sales,
                       gate := Used(db.gate, ticket, "completed", now, update)))
  {
    UseIsExact(db.gate, ticket, "delivery.retry", update, now);
    if j < |db.queue.jobs| {
      FailedJobFits(db, j);
      RetryWrites(db.queue, j, version, now);
      MoveWrites(db.sales, db.queue.jobs[j].order, Delivering, "manual_redelivery_verified");
    }
  }

  /** In a sound state a job that no worker holds belongs to an order that delivers, or
      has failed together with it. */
  lemma FailedJobFits(db: Db, j: nat)
    requires Inv(db) && j < |db.queue.jobs|
    ensures var job := db.queue.jobs[j];
            && job.order < |db.sales.orders|
            && (job.status in {JobAmbiguous, JobManualReview, JobPermanentFailed, JobRetryableFailed} ==>
                  job.lock.None? && db.sales.orders[job.order].status in {Delivering, DeliveryFailed})
  {
    assert Holds(JobsMatch, db) && Holds(QueueSound, db);
    assert JobFits(db.sales, db.queue, j);
    assert JobOk(db.queue.jobs[j], db.queue.attempts, j);
  }

  lemma RetryWrites(q: Queue, j: nat, version: nat, now: int)
    requires j < |q.jobs|
    ensures ManualRetry(q, j, version, now) ==
            if q.jobs[j].version == version
               && q.jobs[j].status in {JobAmbiguous, JobManualReview, JobPermanentFailed, JobRetryableFailed}
            then Ok(q.(jobs := q.jobs[j := RetriedRow(q.jobs[j], now).(version := version + 1)]))
            else Err(NoRows)
  {
  }

  /** A manual retry buys a send: at any later time a claim that picks the job takes
      it, and its worker can begin the next attempt. */
  lemma RetryBuysASend(db: Db, ticket: Ticket, update: nat, j: nat, version: nat, now: int, worker: string, later: int)
    requires Inv(db)
    requires RetryDelivery(db, ticket, update, j, version, now).Ok?
    requires later >= now
    ensures j < |db.queue.jobs|
    ensures var retried := RetryDelivery(db, ticket, update, j, version, now).value;
            var claimed := retried.(queue := ClaimJobs(retried.queue, [j], worker, later));
            && ClaimedRows(retried.queue, [j], worker, later) == [j]
            && BeginAttempt(claimed, j, worker).Ok?
            && BeginAttempt(claimed, j, worker).value.1 == db.queue.jobs[j].attempts + 1
  {
    RetryIsExact(db, ticket, update, j, version, now);
    RetryKeeps(db, ticket, update, j, version, now);
    var retried := RetryDelivery(db, ticket, update, j, version, now).value;
    ClaimKeeps(retried, [j], worker, later);
    assert [j][1..] == [];
    BeginIsExact(retried.(queue := ClaimJobs(retried.queue, [j], worker, later)), j, worker);
  }
}
