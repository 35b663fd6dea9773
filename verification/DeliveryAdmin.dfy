/** Manual resolution of delivery jobs by an administrator. */
module DeliveryAdmin {
  import opened Results
  import opened Domain
  import opened Database
  import opened GateTable
  import opened QueueTable
  import opened SalesTable
  import opened StockTable

  const DELIVERY_RETRY := "delivery.retry"
  const DELIVERY_COMPLETE := "delivery.complete"

  /** RetryDelivery. The log row of the retry is keyed by the next attempt
      number, so one attempt can be retried by hand only once. */
  function RetryDelivery(db: Db, ticket: Ticket, update: nat, j: nat, version: nat, now: QueueTable.Time): Result<Db> {
    var admitted := Admit(db.gate, ticket, DELIVERY_RETRY, now);
    :- admitted;
    if j >= |db.queue.jobs| then Err(DeliveryNotFound)
    else
      var job := db.queue.jobs[j];
      if job.version != version then Err(StaleVersion)
      else if job.status !in {JobAmbiguous, JobManualReview, JobPermanentFailed, JobRetryableFailed} then
        Err(UnsafeDeliveryResolution)
      else if job.order >= |db.sales.orders| then Err(NoRows)
      else
        var order := db.sales.orders[job.order];
        var sales :-
          if order.status == DeliveryFailed then
            Move(db.sales, job.order, DeliveryFailed, Delivering, "manual_redelivery_verified")
          else if order.status == Delivering then Ok(db.sales)
          else Err(InvalidDeliveryState);
        var retried :- ManualRetry(db.queue, j, version, now);
        var queue :- InsertAttempt(retried, AttemptKey(j, job.attempts + 1, ManualResolution),
                                   AttemptRow(NOT_DELIVERED, None));
        var gate :- Leave(db.gate, ticket, update, now);
        Ok(db.(sales := sales, queue := queue, gate := gate))
  }

  /** CompleteDelivery. */
  function CompleteDelivery(db: Db, ticket: Ticket, update: nat, j: nat, version: nat, message: int,
                            now: QueueTable.Time): Result<Db>
  {
    var admitted := Admit(db.gate, ticket, DELIVERY_COMPLETE, now);
    :- admitted;
    var delivered :- DeliverByHand(db, j, version, message);
    var gate :- Leave(db.gate, ticket, update, now);
    Ok(delivered.(gate := gate))
  }

  /** What CompleteDelivery does between entering and leaving the session. */
  function DeliverByHand(db: Db, j: nat, version: nat, message: int): Result<Db> {
    if j >= |db.queue.jobs| then Err(DeliveryNotFound)
    else
      var job := db.queue.jobs[j];
      if job.version != version then Err(StaleVersion)
      else if job.status !in {JobAmbiguous, JobManualReview} then Err(UnsafeDeliveryResolution)
      else if job.order >= |db.sales.orders| then Err(NoRows)
      else if db.sales.orders[job.order].status != Delivering then Err(InvalidDeliveryState)
      else
        var stock :- SellAll(db, job.order);
        var sales :- Move(db.sales, job.order, Delivering, Delivered, "manual_delivery_verified");
        var queue :- CompleteByHand(db.queue, j, version, message);
        Ok(db.(stock := stock, sales := sales, queue := queue))
  }

  /** Every reserved item of the order is sold, or the transaction fails. */
  function SellAll(db: Db, o: nat): Result<Stock>
    requires o < |db.sales.orders|
  {
    var quantity := db.sales.orders[o].quantity;
    var (stock, sold) := SellExact(db.stock, o, quantity);
    if |sold| != quantity then Err(DeliveryInventoryMismatch) else Ok(stock)
  }

  /** The job and its log row. */
  function CompleteByHand(q: Queue, j: nat, version: nat, message: int): Result<Queue>
    requires j < |q.jobs|
  {
    var completed :- ManualComplete(q, j, version, message);
    InsertAttempt(completed, AttemptKey(j, q.jobs[j].attempts + 1, ManualResolution),
                  AttemptRow(WAS_DELIVERED, Some(message)))
  }
}
