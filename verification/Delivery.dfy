/** The delivery transactions: handoff and backfill, stale recovery, claim,
    begin, and the four ways a worker finalises an attempt. */
module Delivery {
  import opened Results
  import opened Domain
  import opened Database
  import opened QueueTable
  import opened SalesTable
  import opened StockTable

  /** A failure as a worker reports it. */
  datatype Failure = Failure(result: ResultClass, code: string, nextAttemptAt: QueueTable.Time)

  /** What the sender answered to a send that it took as delivered. */
  datatype Evidence = Evidence(chat: int, message: int)

  /** createDeliveryHandoffWithinTransaction: the flag tells whether a job was created. */
  function Handoff(db: Db, order: nat, now: QueueTable.Time, maxAttempts: nat): Result<(Db, bool)> {
    if maxAttempts == 0 then Err(InvalidInput)
    else if order >= |db.sales.orders| || db.sales.orders[order].user >= |db.sales.users| then Err(NoRows)
    else
      var row := db.sales.orders[order];
      var chat := db.sales.users[row.user].chat;
      if row.status == Delivering then
        if FindByOrder(db.queue, order).Some? then Ok((db, false)) else Err(NoRows)
      else if row.status != Reserving || chat <= 0 || row.quantity <= 0 then Err(InvalidDeliveryState)
      else if |Deliverable(db.stock, order)| != row.quantity then Err(DeliveryInventoryMismatch)
      else
        match InsertJob(db.queue, order, maxAttempts, now, chat)
        case None => if FindByOrder(db.queue, order).Some? then Ok((db, false)) else Err(NoRows)
        case Some(queue) =>
          var sales :- Move(db.sales, order, Reserving, Delivering, "delivery_job_created");
          Ok((db.(queue := queue, sales := sales), true))
  }

  /** The rows ListDeliveryBackfillOrderIDs may return. */
  predicate Backlogged(db: Db, order: nat) {
    && order < |db.sales.orders|
    && db.sales.orders[order].status == Reserving
    && |Deliverable(db.stock, order)| == db.sales.orders[order].quantity
    && FindByOrder(db.queue, order).None?
  }

  function Backfill(db: Db, picked: seq<nat>, now: QueueTable.Time, maxAttempts: nat): Result<(Db, nat)>
    decreases |picked|
  {
    if picked == [] then Ok((db, 0))
    else if !Backlogged(db, picked[0]) then Backfill(db, picked[1..], now, maxAttempts)
    else
      var (next, inserted) :- Handoff(db, picked[0], now, maxAttempts);
      var (last, created) :- Backfill(next, picked[1..], now, maxAttempts);
      Ok((last, created + if inserted then 1 else 0))
  }

  /** One row of RecoverStaleDeliveryJobs: a claimed job may be claimed again, a
      sending job has an unknown outcome. */
  function RecoverOne(q: Queue, j: nat, now: QueueTable.Time): Result<Queue>
    requires j < |q.jobs|
  {
    if IsSending(q.jobs[j]) then
      var marked :- MarkAmbiguous(q, j, None);
      InsertAttempt(marked, AttemptKey(j, q.jobs[j].attempts, FailedAmbiguous),
                    AttemptRow("stale_after_send_started", None))
    else
      MarkStaleClaimRetryable(q, j, now)
  }

  /** The picked rows that are not stale are not selected. */
  function RecoverStale(q: Queue, picked: seq<nat>, now: QueueTable.Time, staleBefore: QueueTable.Time): Result<Queue>
    decreases |picked|
  {
    if picked == [] then Ok(q)
    else if picked[0] < |q.jobs| && IsStale(q.jobs[picked[0]], staleBefore) then
      var next :- RecoverOne(q, picked[0], now);
      RecoverStale(next, picked[1..], now, staleBefore)
    else RecoverStale(q, picked[1..], now, staleBefore)
  }

  /** How many sends a recovery gave up on, and how many claims it gave back. */
  datatype Recovery = Recovery(ambiguous: nat, retryable: nat)

  /** The picked jobs that are stale in one of the two stages. */
  function StaleIn(q: Queue, picked: seq<nat>, staleBefore: QueueTable.Time, stage: Stage): set<nat> {
    set j | j in picked && j < |q.jobs| && IsStale(q.jobs[j], staleBefore) && q.jobs[j].lock.value.stage == stage
  }

  /** LoadClaimedDelivery: the job is still this worker's claim and the order
      still holds exactly its items. */
  function LoadClaimed(db: Db, j: nat, worker: string): Check {
    if j >= |db.queue.jobs| then Fail(DeliveryNotFound)
    else
      var job := db.queue.jobs[j];
      if job.order >= |db.sales.orders| || db.sales.orders[job.order].user >= |db.sales.users| then
        Fail(DeliveryNotFound)
      else
        var order := db.sales.orders[job.order];
        if !IsClaimed(job, worker) || order.status != Delivering || job.recipient != db.sales.users[order.user].chat
            || order.quantity <= 0
        then Fail(InvalidDeliveryState)
        else if |Deliverable(db.stock, job.order)| != order.quantity then Fail(DeliveryInventoryMismatch)
        else Pass
  }

  /** BeginDeliveryAttempt returns the attempt number it opened. */
  function BeginAttempt(db: Db, j: nat, worker: string): Result<(Db, nat)> {
    if BeginSend(db.queue, j, worker).Err? then Err(DeliveryLeaseLost)
    else
      var begun := BeginSend(db.queue, j, worker).value;
      var number := begun.jobs[j].attempts;
      var queue :- InsertAttempt(begun, AttemptKey(j, number, Started), AttemptRow("", None));
      Ok((db.(queue := queue), number))
  }

  function FinalizeSuccess(db: Db, j: nat, worker: string, evidence: Evidence): Result<Db> {
    if j >= |db.queue.jobs| then Err(NoRows)
    else
      var job := db.queue.jobs[j];
      if job.status == JobCompleted then Ok(db)
      else if !IsSendingBy(job, worker) then Err(DeliveryLeaseLost)
      else if job.order >= |db.sales.orders| then Err(NoRows)
      else
        var order := db.sales.orders[job.order];
        if order.status != Delivering || evidence.chat != job.recipient || evidence.message <= 0 then
          Err(InvalidDeliveryState)
        else
          var (stock, sold) := SellExact(db.stock, job.order, order.quantity);
          if |sold| != order.quantity then Err(DeliveryInventoryMismatch)
          else
            var sales :- Move(db.sales, job.order, Delivering, Delivered, "telegram_delivery_confirmed");
            var completed :- MarkCompleted(db.queue, j, worker, evidence.message);
            var queue :- InsertAttempt(completed, AttemptKey(j, job.attempts, Succeeded),
                                       AttemptRow("", Some(evidence.message)));
            Ok(db.(stock := stock, sales := sales, queue := queue))
  }

  function FailureStatus(result: ResultClass): AttemptStatus {
    match result
    case Retryable => FailedRetryable
    case Permanent => FailedPermanent
    case _ => FailedAmbiguous
  }

  /** markOrderDeliveryFailed: guarded by the status alone, not by a version. */
  function MarkOrderFailed(s: Sales, order: nat, reason: string): Result<Sales> {
    if order < |s.orders| && s.orders[order].status == Delivering then
      Move(s, order, Delivering, DeliveryFailed, reason)
    else Err(InvalidDeliveryState)
  }

  function FinalizeFailure(db: Db, j: nat, worker: string, failure: Failure): Result<Db> {
    if j >= |db.queue.jobs| then Err(NoRows)
    else
      var job := db.queue.jobs[j];
      if !IsSendingBy(job, worker) then Err(DeliveryLeaseLost)
      else
        var logged :- InsertAttempt(db.queue, AttemptKey(j, job.attempts, FailureStatus(failure.result)),
                                    AttemptRow(failure.code, None));
        match failure.result
        case Retryable =>
          var queue :- MarkRetryable(logged, j, worker, failure.nextAttemptAt);
          Ok(db.(queue := queue))
        case Permanent =>
          var queue :- MarkPermanentFailed(logged, j, worker);
          var sales :- MarkOrderFailed(db.sales, job.order, failure.code);
          Ok(db.(queue := queue, sales := sales))
        case Ambiguous =>
          var queue :- MarkAmbiguous(logged, j, None);
          Ok(db.(queue := queue))
        case Success => Err(InvalidDeliveryState)
  }

  /** FinalizeClaimedDeliveryFailure: anything but a retryable failure ends the
      job, but only a permanent one also fails the order. */
  function FinalizeClaimedFailure(db: Db, j: nat, worker: string, failure: Failure): Result<Db> {
    if j >= |db.queue.jobs| then Err(NoRows)
    else
      var job := db.queue.jobs[j];
      if !IsClaimed(job, worker) then Err(DeliveryLeaseLost)
      else
        var status := if failure.result == Retryable then JobRetryableFailed else JobPermanentFailed;
        var updated :- MarkClaimedFailure(db.queue, j, worker, status, failure.nextAttemptAt);
        var queue :- InsertAttempt(updated, AttemptKey(j, updated.jobs[j].attempts, FailureStatus(failure.result)),
                                   AttemptRow(failure.code, None));
        if failure.result == Permanent then
          var sales :- MarkOrderFailed(db.sales, job.order, failure.code);
          Ok(db.(queue := queue, sales := sales))
        else Ok(db.(queue := queue))
  }

  /** PreserveAmbiguousSuccess does not check which worker owns the send. */
  function PreserveAmbiguous(q: Queue, j: nat, message: int, reason: string): Result<Queue> {
    if j >= |q.jobs| then Err(NoRows)
    else if q.jobs[j].status == JobCompleted then Ok(q)
    else if !IsSending(q.jobs[j]) then Err(InvalidDeliveryState)
    else
      var marked :- MarkAmbiguous(q, j, Some(message));
      InsertAttempt(marked, AttemptKey(j, q.jobs[j].attempts, FailedAmbiguous), AttemptRow(reason, Some(message)))
  }
}
