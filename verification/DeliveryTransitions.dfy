/** Job statuses against the delivery transition table: the automatic transactions
    obey it; the manual retry goes beyond it in exactly one case. */
module DeliveryTransitions {
  import opened Domain
  import opened Delivery
  import opened DeliveryAdmin
  import opened GateTable
  import opened QueueTable
  import Database

  /** A job keeps its status, or moves along the table for automatic steps. */
  predicate MovesAutomatically(from: DeliveryStatus, to: DeliveryStatus) {
    from == to || CanTransitionDelivery(from, to, false)
  }

  ghost predicate AllMoveAutomatically(q: Queue, q': Queue) {
    && |q.jobs| <= |q'.jobs|
    && (forall j :: 0 <= j < |q.jobs| ==> MovesAutomatically(q.jobs[j].status, q'.jobs[j].status))
    && (forall j :: |q.jobs| <= j < |q'.jobs| ==> q'.jobs[j].status == JobPending)
  }

  /** In a batch each job moves at most once: a claimed job is not due again. */
  lemma {:induction false} ClaimsMoveAutomatically(q: Queue, picked: seq<nat>, worker: string, now: int)
    ensures var q' := ClaimJobs(q, picked, worker, now);
            && |q'.jobs| == |q.jobs|
            && forall j :: 0 <= j < |q.jobs| ==>
                 q'.jobs[j].status == q.jobs[j].status
                     || (AutomaticallyClaimable(q.jobs[j].status) && q'.jobs[j].status == JobProcessing)
    decreases |picked|
  {
    if picked == [] {
    } else {
      ClaimsMoveAutomatically(ClaimOne(q, picked[0], worker, now), picked[1..], worker, now);
    }
  }

  lemma {:induction false} RecoveryMovesAutomatically(q: Queue, picked: seq<nat>, now: int, staleBefore: int)
    requires RecoverStale(q, picked, now, staleBefore).Ok?
    ensures var q' := RecoverStale(q, picked, now, staleBefore).value;
            && |q'.jobs| == |q.jobs|
            && forall j :: 0 <= j < |q.jobs| ==>
                 q'.jobs[j].status == q.jobs[j].status
                     || (q.jobs[j].status == JobProcessing && q'.jobs[j].status in {JobAmbiguous, JobRetryableFailed})
    decreases |picked|
  {
    if picked == [] {
    } else {
      if picked[0] < |q.jobs| && IsStale(q.jobs[picked[0]], staleBefore) {
        RecoveryMovesAutomatically(RecoverOne(q, picked[0], now).value, picked[1..], now, staleBefore);
      } else {
        RecoveryMovesAutomatically(q, picked[1..], now, staleBefore);
      }
    }
  }

  /** Every automatic transaction moves every job along the table. */
  lemma AutomaticStepsObeyTheTable(db: Database.Db, j: nat, worker: string, evidence: Evidence, failure: Failure,
                                   message: int, reason: string, picked: seq<nat>, now: int, staleBefore: int)
    ensures AllMoveAutomatically(db.queue, ClaimJobs(db.queue, picked, worker, now))
    ensures RecoverStale(db.queue, picked, now, staleBefore).Ok? ==>
            AllMoveAutomatically(db.queue, RecoverStale(db.queue, picked, now, staleBefore).value)
    ensures BeginAttempt(db, j, worker).Ok? ==>
            AllMoveAutomatically(db.queue, BeginAttempt(db, j, worker).value.0.queue)
    ensures FinalizeSuccess(db, j, worker, evidence).Ok? ==>
            AllMoveAutomatically(db.queue, FinalizeSuccess(db, j, worker, evidence).value.queue)
    ensures FinalizeFailure(db, j, worker, failure).Ok? ==>
            AllMoveAutomatically(db.queue, FinalizeFailure(db, j, worker, failure).value.queue)
    ensures FinalizeClaimedFailure(db, j, worker, failure).Ok? ==>
            AllMoveAutomatically(db.queue, FinalizeClaimedFailure(db, j, worker, failure).value.queue)
    ensures PreserveAmbiguous(db.queue, j, message, reason).Ok? ==>
            AllMoveAutomatically(db.queue, PreserveAmbiguous(db.queue, j, message, reason).value)
  {
    ClaimsMoveAutomatically(db.queue, picked, worker, now);
    if RecoverStale(db.queue, picked, now, staleBefore).Ok? {
      RecoveryMovesAutomatically(db.queue, picked, now, staleBefore);
    }
    FailuresMoveAutomatically(db, j, worker, failure);
    SuccessMovesAutomatically(db, j, worker, evidence);
  }

  lemma FailuresMoveAutomatically(db: Database.Db, j: nat, worker: string, failure: Failure)
    ensures FinalizeFailure(db, j, worker, failure).Ok? ==>
            AllMoveAutomatically(db.queue, FinalizeFailure(db, j, worker, failure).value.queue)
    ensures FinalizeClaimedFailure(db, j, worker, failure).Ok? ==>
            AllMoveAutomatically(db.queue, FinalizeClaimedFailure(db, j, worker, failure).value.queue)
  {
  }

  lemma SuccessMovesAutomatically(db: Database.Db, j: nat, worker: string, evidence: Evidence)
    ensures FinalizeSuccess(db, j, worker, evidence).Ok? ==>
            AllMoveAutomatically(db.queue, FinalizeSuccess(db, j, worker, evidence).value.queue)
  {
  }

  /** A committed manual retry obeys the table for manual steps if and only if the job
      was not waiting for an automatic retry. */
  lemma RetryObeysTheTable(db: Database.Db, ticket: Ticket, update: nat, j: nat, version: nat, now: int)
    requires RetryDelivery(db, ticket, update, j, version, now).Ok?
    ensures j < |db.queue.jobs|
    ensures var before := db.queue.jobs[j].status;
            var after := RetryDelivery(db, ticket, update, j, version, now).value.queue.jobs[j].status;
            CanTransitionDelivery(before, after, true) <==> before != JobRetryableFailed
  {
  }

  lemma CompletionObeysTheTable(db: Database.Db, ticket: Ticket, update: nat, j: nat, version: nat, message: int,
                                now: int)
    requires CompleteDelivery(db, ticket, update, j, version, message, now).Ok?
    ensures j < |db.queue.jobs|
    ensures CanTransitionDelivery(db.queue.jobs[j].status,
                                  CompleteDelivery(db, ticket, update, j, version, message,
                                                   now).value.queue.jobs[j].status, true)
  {
  }
}
