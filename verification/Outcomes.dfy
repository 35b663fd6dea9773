/** What single transactions do, for all inputs: batches row by row, and mutations
    with the exact condition under which they commit. */
module Outcomes {
  import opened Results
  import opened Domain
  import opened Database
  import opened Delivery
  import opened DeliveryInvariant
  import opened GateOutcomes
  import opened GateTable
  import opened OrderStore
  import opened QueueTable
  import opened SalesTable

  // ---------- batches of delivery jobs ----------

  /** The job waits for an automatic attempt whose time has come, and has one left. */
  predicate Ready(job: Job, now: int) {
    job.status in {JobPending, JobRetryableFailed} && job.nextAttemptAt <= now && job.attempts < job.maxAttempts
  }

  /** The row of a job after a claim that selects due rows among the picked ones. */
  function ClaimedRow(job: Job, worker: string, now: int): Job {
    job.(status := JobProcessing, lock := Some(Lock(Claimed, worker, now)), version := job.version + 1)
  }

  /** A claim takes exactly the picked jobs that are due, each of them once however
      often it is picked, and leaves every other job and the log alone. */
  lemma {:induction false} ClaimIsExact(q: Queue, picked: seq<nat>, worker: string, now: int)
    ensures var q' := ClaimJobs(q, picked, worker, now);
            && |q'.jobs| == |q.jobs| && q'.attempts == q.attempts
            && forall j: nat :: j < |q.jobs| ==>
                 q'.jobs[j] == if j in picked && Ready(q.jobs[j], now) then ClaimedRow(q.jobs[j], worker, now)
                   else q.jobs[j]
    decreases |picked|
  {
    if picked == [] {
    } else {
      ClaimIsExact(ClaimOne(q, picked[0], worker, now), picked[1..], worker, now);
      assert picked == [picked[0]] + picked[1..];
    }
  }

  /** A claim answers with exactly the rows it took, each once. */
  lemma {:induction false} AnswerIsExact(q: Queue, picked: seq<nat>, worker: string, now: int)
    ensures var rows := ClaimedRows(q, picked, worker, now);
            && (forall j :: j in rows <==> j in picked && j < |q.jobs| && Ready(q.jobs[j], now))
            && (forall a, b :: 0 <= a < b < |rows| ==> rows[a] != rows[b])
    decreases |picked|
  {
    if picked == [] {
    } else {
      var next := ClaimOne(q, picked[0], worker, now);
      AnswerIsExact(next, picked[1..], worker, now);
      assert picked == [picked[0]] + picked[1..];
      assert picked[0] < |next.jobs| ==> !Ready(next.jobs[picked[0]], now);
      assert picked[0] !in ClaimedRows(next, picked[1..], worker, now);
    }
  }

  /** A worker locked the job before the given time and never finished with it. */
  predicate Abandoned(job: Job, before: int) {
    job.status == JobProcessing && job.lock.Some? && job.lock.value.at < before
  }

  /** The row of a stale job after its recovery. */
  function RecoveredRow(job: Job, now: int): Job {
    if job.lock.Some? && job.lock.value.stage == Sending then
      job.(status := JobAmbiguous, lock := None, version := job.version + 1)
    else job.(status := JobRetryableFailed, lock := None, nextAttemptAt := now, version := job.version + 1)
  }

  lemma RecoverOneIsExact(q: Queue, j: nat, now: int)
    requires QueueOk(q) && j < |q.jobs| && q.jobs[j].status == JobProcessing
    ensures RecoverOne(q, j, now).Ok? && QueueOk(RecoverOne(q, j, now).value)
    ensures RecoverOne(q, j, now).value.jobs == q.jobs[j := RecoveredRow(q.jobs[j], now)]
    ensures RecoverOne(q, j, now).value.attempts ==
            if IsSending(q.jobs[j])
            then q.attempts[AttemptKey(j, q.jobs[j].attempts, FailedAmbiguous) :=
                            AttemptRow("stale_after_send_started", None)]
            else q.attempts
  {
    RecoverOneQueue(q, j, now);
  }

  /** Stale recovery settles exactly the picked jobs that are stale: a send becomes
      ambiguous, a claim becomes retryable at once; every other job stays, and the
      log gains exactly one row for each recovered send. */
  lemma {:induction false} RecoveryIsExact(q: Queue, picked: seq<nat>, now: int, before: int)
    requires QueueOk(q)
    ensures var r := RecoverStale(q, picked, now, before);
            && r.Ok? && |r.value.jobs| == |q.jobs|
            && (forall j: nat :: j < |q.jobs| ==>
                  r.value.jobs[j] == if j in picked && Abandoned(q.jobs[j], before) then RecoveredRow(q.jobs[j], now)
                    else q.jobs[j])
            && (forall k :: k in r.value.attempts <==>
                  k in q.attempts || (k.job in picked && k.job < |q.jobs| && Abandoned(q.jobs[k.job], before)
                                      && q.jobs[k.job].lock.value.stage == Sending
                                      && k == AttemptKey(k.job, q.jobs[k.job].attempts, FailedAmbiguous)))
    decreases |picked|
  {
    if picked == [] {
    } else {
      assert picked == [picked[0]] + picked[1..];
      if picked[0] < |q.jobs| && IsStale(q.jobs[picked[0]], before) {
        RecoverOneIsExact(q, picked[0], now);
        RecoveryIsExact(RecoverOne(q, picked[0], now).value, picked[1..], now, before);
      } else {
        RecoveryIsExact(q, picked[1..], now, before);
      }
    }
  }

  // ---------- orders ----------

  /** The order still waits for its payment, and its window has passed. */
  predicate Lapsed(order: Order, now: int) {
    order.status == PendingPayment && order.expiresAt <= now
  }

  /** Expiry ends exactly the picked pending orders whose window has passed, each
      with one history row, and leaves every other order alone. */
  lemma {:induction false} ExpiryIsExact(s: Sales, picked: seq<nat>, now: int)
    ensures var s' := ExpireOrders(s, picked, now);
            && s' == s.(orders := s'.orders, history := s'.history) && |s'.orders| == |s.orders|
            && forall o: nat :: o < |s.orders| ==>
                 if o in picked && Lapsed(s.orders[o], now) then
                   && s'.orders[o] == s.orders[o].(status := Expired, version := s.orders[o].version + 1)
                   && HistoryOf(s', o) ==
                      HistoryOf(s, o) + [HistoryRow(Some(PendingPayment), Expired, "payment_window_elapsed")]
                 else s'.orders[o] == s.orders[o] && HistoryOf(s', o) == HistoryOf(s, o)
    decreases |picked|
  {
    if picked == [] {
    } else {
      var next := if Overdue(s, picked[0], now) then Expire(s, picked[0]) else s;
      ExpiryIsExact(next, picked[1..], now);
      assert picked == [picked[0]] + picked[1..];
    }
  }

  /** Nobody but the owner cancels, only a pending order within its window and at the
      version the owner saw; a second cancellation only completes its update. */
  lemma CancellationIsExact(db: Db, user: nat, o: nat, version: nat, update: nat, now: int)
    ensures CancelOrder(db, user, o, version, update, now).Ok? <==>
              && o < |db.sales.orders| && db.sales.orders[o].user == user && BeingProcessed(db.gate, update)
              && var order := db.sales.orders[o];
              (order.status == Cancelled
               || (order.status == PendingPayment && order.expiresAt > now && order.version == version))
    ensures CancelOrder(db, user, o, version, update, now).Ok? ==>
              var (db', again) := CancelOrder(db, user, o, version, update, now).value;
              && again == (db.sales.orders[o].status == Cancelled)
              && db' == db.(sales := db'.sales,
                            gate := db.gate.(receipts := db.gate.receipts[update := ReceiptCompleted]))
              && var order := db.sales.orders[o];
              db'.sales == if again then db.sales else db.sales.(
                orders := db.sales.orders[o := order.(status := Cancelled, version := order.version + 1)],
                history := db.sales.history[
                  o := HistoryOf(db.sales, o) + [HistoryRow(Some(PendingPayment), Cancelled, "customer_cancelled")]])
  {
  }
}
