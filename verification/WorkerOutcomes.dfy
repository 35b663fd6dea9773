/** What a worker does with an answer, in every sound world: a trusted success is never
    forgotten, and anything else is reported as what it is. */
module WorkerOutcomes {
  import opened Results
  import opened Domain
  import opened Agreement
  import opened DeliveryOutcomes
  import opened Protocol
  import opened QueueTable
  import opened RetryDelay
  import opened Workers
  import Delivery

  /** The answer confirms the delivery to the recipient of the job, with a message id. */
  predicate Proves(answer: Answer, recipient: int) {
    answer.Confirmed? && answer.chat == recipient && answer.message > 0
  }

  ghost predicate HasAnswer(x: World, w: string) {
    WorldOk(x) && w in x.pcs && x.pcs[w].Answered?
  }

  /** The worker goes on with the rest of its batch if it learns of the commit. */
  function Onwards(todo: seq<nat>): Pc {
    if |todo| > 1 then Working(todo[1..]) else Idle
  }

  /** A proof of delivery is never forgotten. As long as the send is the worker's, it
      completes the job with its message and delivers the order; if the worker does not
      learn of that, its transaction fails, or the job was taken from it, the proof stays
      with the worker, which will preserve it. */
  lemma ProofIsKept(x: World, p: Policy, w: string, now: int, draw: real, seen: bool)
    requires HasAnswer(x, w) && now <= x.clock
    ensures x.pcs[w].send.job < |x.db.queue.jobs|
    ensures var pc := x.pcs[w];
            var job := x.db.queue.jobs[pc.send.job];
            var x' := Next(x, p, Finish(w, now, draw, seen));
            Proves(pc.answer, job.recipient) ==>
              && Next(x, p, Lose(w)) == x.(pcs := x.pcs[w := Preserving(pc.send, pc.answer.message)])
              && x'.pcs[w] == (if seen && (SentBy(job, w) || job.status == JobCompleted) then Onwards(pc.todo)
                               else Preserving(pc.send, pc.answer.message))
              && (!SentBy(job, w) ==> x'.db == x.db)
              && (SentBy(job, w) ==>
                    && x'.db.queue.jobs[pc.send.job] ==
                       job.(status := JobCompleted, lock := None, message := Some(pc.answer.message),
                            version := job.version + 1)
                    && job.order < |x.db.sales.orders|
                    && x'.db.sales == MovedOn(x.db.sales, job.order, Delivered, "telegram_delivery_confirmed"))
  {
    var pc := x.pcs[w];
    assert PcOk(x.db.queue, x.net, w, pc);
    if Proves(pc.answer, x.db.queue.jobs[pc.send.job].recipient) {
      ConfirmationIsExact(x.db, pc.send.job, w, Delivery.Evidence(pc.answer.chat, pc.answer.message));
    }
  }

  /** What is preserved: a job that is still sending becomes ambiguous with the message
      of the proof, so that no worker sends it again; any other job stays as it is. */
  lemma PreservedProofStopsSending(x: World, p: Policy, w: string)
    requires WorldOk(x) && w in x.pcs && x.pcs[w].Preserving?
    ensures x.pcs[w].send.job < |x.db.queue.jobs|
    ensures var pc := x.pcs[w];
            var q := x.db.queue;
            var job := q.jobs[pc.send.job];
            var x' := Next(x, p, PreserveSuccess(w));
            && x'.pcs[w] == Idle
            && x'.db == x.db.(queue := x'.db.queue)
            && x'.db.queue == if job.lock.Some? && SentBy(job, job.lock.value.worker) then
                 Logged(q, pc.send.job, job.(status := JobAmbiguous, lock := None, message := Some(pc.message)),
                        job.attempts, FailedAmbiguous, AttemptRow("database_finalize_failed", Some(pc.message)))
               else q
  {
    var pc := x.pcs[w];
    assert PcOk(x.db.queue, x.net, w, pc);
    assert Holds(QueueSound, x.db);
    PreservationIsExact(x.db.queue, pc.send.job, pc.message, "database_finalize_failed");
  }

  /** The error an answer without proof stands for: a claimed success is ambiguous. */
  function ErrorOf(answer: Answer): Option<SendError> {
    match answer
    case Confirmed(_, _) => Some(SendError(Ambiguous, "invalid_success_evidence", 0))
    case Failed(error) => error
  }

  /** Any other answer is reported by the owner of the send, as its verdict says, and
      by nobody else; the job row and the log say what was reported. */
  lemma FailureIsReported(x: World, p: Policy, w: string, now: int, draw: real, seen: bool)
    requires HasAnswer(x, w) && now <= x.clock
    ensures x.pcs[w].send.job < |x.db.queue.jobs|
    ensures var pc := x.pcs[w];
            var q := x.db.queue;
            var job := q.jobs[pc.send.job];
            var x' := Next(x, p, Finish(w, now, draw, seen));
            var v := Classify(ErrorOf(pc.answer), job.attempts, p, now, draw);
            !Proves(pc.answer, job.recipient) ==>
              && (!SentBy(job, w) || v.result == Success ==> x'.db == x.db && x'.pcs[w] == Idle)
              && (SentBy(job, w) && v.result != Success ==>
                    && x'.pcs[w] == (if seen then Onwards(pc.todo) else Idle)
                    && x'.db.queue ==
                       Logged(q, pc.send.job,
                              FailedRow(job, Delivery.Failure(v.result, v.code, v.nextAttemptAt)), job.attempts,
                              OutcomeOf(v.result), AttemptRow(v.code, None)))
  {
    var pc := x.pcs[w];
    assert PcOk(x.db.queue, x.net, w, pc);
    var job := x.db.queue.jobs[pc.send.job];
    var v := Classify(ErrorOf(pc.answer), pc.send.number, p, now, draw);
    if !Proves(pc.answer, job.recipient) {
      FailureIsExact(x.db, pc.send.job, w, Delivery.Failure(v.result, v.code, v.nextAttemptAt));
    }
  }

  /** A job that is rejected before its send waits for its backoff if the worker was
      cancelled, and is over, with its order, if its content was wrong. */
  lemma RejectionIsReported(x: World, p: Policy, w: string, now: int, draw: real, seen: bool)
    requires WorldOk(x) && w in x.pcs && x.pcs[w].Rejected? && x.pcs[w].todo != [] && now <= x.clock
    requires x.pcs[w].todo[0] < |x.db.queue.jobs| && ClaimedBy(x.db.queue.jobs[x.pcs[w].todo[0]], w)
    ensures var pc := x.pcs[w];
            var q := x.db.queue;
            var job := q.jobs[pc.todo[0]];
            var x' := Next(x, p, FailEarly(w, now, draw, seen));
            var status := if pc.retryable then JobRetryableFailed else JobPermanentFailed;
            var code := if pc.retryable then "cancelled_before_send" else "delivery_validation_failed";
            var due := if pc.retryable then now + Delay(p, job.attempts + 1, 0, draw) else 0;
            && x'.pcs[w] == (if seen then Onwards(pc.todo) else Idle)
            && x'.db.queue == Logged(q, pc.todo[0],
                 job.(status := status, lock := None, attempts := job.attempts + 1, nextAttemptAt := due),
                 job.attempts + 1, if pc.retryable then FailedRetryable else FailedPermanent, AttemptRow(code, None))
            && job.order < |x.db.sales.orders|
            && x'.db.sales == if pc.retryable then x.db.sales
                 else MovedOn(x.db.sales, job.order, DeliveryFailed, "delivery_validation_failed")
  {
    var pc := x.pcs[w];
    var j := pc.todo[0];
    EarlyFailureIsExact(x.db, j, w, EarlyVerdict(pc.retryable, x.db.queue.jobs[j].attempts, p, now, draw));
  }
}
