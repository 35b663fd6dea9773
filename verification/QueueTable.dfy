/** Delivery jobs (the outbox rows of type order.delivery_requested) and their
    attempt log, with the SQL statements that read and write them. */
module QueueTable {
  import opened Results
  import opened Domain

  type Time = int

  datatype Stage = Claimed | Sending

  datatype Lock = Lock(stage: Stage, worker: string, at: Time)

  datatype Resolution = NoResolution | RetryRequested | MarkedDelivered

  /** granted is the max_attempts the job was inserted with; no statement reads it. */
  datatype Job = Job(
    order: nat, recipient: int, status: DeliveryStatus, lock: Option<Lock>,
    attempts: nat, maxAttempts: nat, nextAttemptAt: Time,
    message: Option<int>, resolution: Resolution, version: nat, granted: nat)

  datatype AttemptStatus =
    | Started | Succeeded | FailedRetryable | FailedAmbiguous | FailedPermanent | ManualResolution

  /** The unique constraint of delivery_attempts is the key of the log. */
  datatype AttemptKey = AttemptKey(job: nat, number: nat, status: AttemptStatus)

  datatype AttemptRow = AttemptRow(code: string, message: Option<int>)

  datatype Queue = Queue(jobs: seq<Job>, attempts: map<AttemptKey, AttemptRow>)

  const NOT_DELIVERED := "verified_not_delivered"
  const WAS_DELIVERED := "verified_delivered"

  predicate IsClaimed(job: Job, worker: string) {
    job.status == JobProcessing && job.lock.Some? && job.lock.value.stage == Claimed && job.lock.value.worker == worker
  }

  predicate IsSending(job: Job) {
    job.status == JobProcessing && job.lock.Some? && job.lock.value.stage == Sending
  }

  predicate IsSendingBy(job: Job, worker: string) {
    IsSending(job) && job.lock.value.worker == worker
  }

  /** Writes one job row back. */
  function Put(q: Queue, j: nat, job: Job): Queue
    requires j < |q.jobs|
  {
    q.(jobs := q.jobs[j := job.(version := job.version + 1)])
  }

  function FindByOrder(q: Queue, order: nat): (found: Option<nat>)
    ensures found.Some? ==> found.value < |q.jobs| && q.jobs[found.value].order == order
    ensures found.None? ==> forall j :: 0 <= j < |q.jobs| ==> q.jobs[j].order != order
  {
    var wanted := (job: Job) => job.order == order;
    var found := Find(q.jobs, wanted);
    assert found.None? ==> forall j :: 0 <= j < |q.jobs| ==> !wanted(q.jobs[j]);
    found
  }

  /** InsertDeliveryJob: the deduplication key names the order, so a second job
      of the same order is silently not inserted. */
  function InsertJob(q: Queue, order: nat, maxAttempts: nat, now: Time, recipient: int): Option<Queue> {
    if FindByOrder(q, order).Some? then None
    else Some(q.(jobs :=
                 q.jobs + [Job(order, recipient, JobPending, None, 0, maxAttempts, now, None, NoResolution, 1,
                               maxAttempts)]))
  }

  predicate Due(job: Job, now: Time) {
    AutomaticallyClaimable(job.status) && job.nextAttemptAt <= now && job.attempts < job.maxAttempts
  }

  /** ClaimDeliveryJobs on one of the rows it selected. */
  function ClaimOne(q: Queue, j: nat, worker: string, now: Time): Queue {
    if j < |q.jobs| && Due(q.jobs[j], now) then
      Put(q, j, q.jobs[j].(status := JobProcessing, lock := Some(Lock(Claimed, worker, now))))
    else q
  }

  /** ClaimDeliveryJobs: rows that are not due are not selected. */
  function ClaimJobs(q: Queue, picked: seq<nat>, worker: string, now: Time): Queue
    decreases |picked|
  {
    if picked == [] then q else ClaimJobs(ClaimOne(q, picked[0], worker, now), picked[1..], worker, now)
  }

  /** The rows a claim returns, in the order they were picked. */
  function ClaimedRows(q: Queue, picked: seq<nat>, worker: string, now: Time): seq<nat>
    decreases |picked|
  {
    if picked == [] then []
    else
      var rest := ClaimedRows(ClaimOne(q, picked[0], worker, now), picked[1..], worker, now);
      if picked[0] < |q.jobs| && Due(q.jobs[picked[0]], now) then [picked[0]] + rest else rest
  }

  function BeginSend(q: Queue, j: nat, worker: string): Result<Queue> {
    if j < |q.jobs| && IsClaimed(q.jobs[j], worker) && q.jobs[j].attempts < q.jobs[j].maxAttempts then
      var job := q.jobs[j];
      Ok(Put(q, j, job.(lock := Some(job.lock.value.(stage := Sending)), attempts := job.attempts + 1)))
    else Err(NoRows)
  }

  function InsertAttempt(q: Queue, key: AttemptKey, row: AttemptRow): Result<Queue> {
    if key in q.attempts then Err(Constraint) else Ok(q.(attempts := q.attempts[key := row]))
  }

  function MarkCompleted(q: Queue, j: nat, worker: string, message: int): Result<Queue> {
    if j < |q.jobs| && IsSendingBy(q.jobs[j], worker) then
      Ok(Put(q, j, q.jobs[j].(status := JobCompleted, lock := None, message := Some(message))))
    else Err(NoRows)
  }

  function MarkRetryable(q: Queue, j: nat, worker: string, nextAttemptAt: Time): Result<Queue> {
    if j < |q.jobs| && IsSendingBy(q.jobs[j], worker) then
      Ok(Put(q, j, q.jobs[j].(status := JobRetryableFailed, lock := None, nextAttemptAt := nextAttemptAt)))
    else Err(NoRows)
  }

  function MarkPermanentFailed(q: Queue, j: nat, worker: string): Result<Queue> {
    if j < |q.jobs| && IsSendingBy(q.jobs[j], worker) then
      Ok(Put(q, j, q.jobs[j].(status := JobPermanentFailed, lock := None)))
    else Err(NoRows)
  }

  /** MarkDeliveryAmbiguous does not look at the lock owner. MarkStaleDeliverySendAmbiguous
      is the same update without evidence. */
  function MarkAmbiguous(q: Queue, j: nat, message: Option<int>): Result<Queue> {
    if j < |q.jobs| && IsSending(q.jobs[j]) then
      var kept := if message.Some? then message else q.jobs[j].message;
      Ok(Put(q, j, q.jobs[j].(status := JobAmbiguous, lock := None, message := kept)))
    else Err(NoRows)
  }

  function MarkStaleClaimRetryable(q: Queue, j: nat, now: Time): Result<Queue> {
    if j < |q.jobs| && q.jobs[j].status == JobProcessing && q.jobs[j].lock.Some?
        && q.jobs[j].lock.value.stage == Claimed then
      Ok(Put(q, j, q.jobs[j].(status := JobRetryableFailed, lock := None, nextAttemptAt := now)))
    else Err(NoRows)
  }

  /** MarkClaimedDeliveryFailure: attempts grows without a guard; the CHECK
      attempts <= max_attempts stands behind it. */
  function MarkClaimedFailure(q: Queue, j: nat, worker: string, status: DeliveryStatus,
                              nextAttemptAt: Time): Result<Queue>
  {
    if j < |q.jobs| && IsClaimed(q.jobs[j], worker)
        && status in {JobRetryableFailed, JobPermanentFailed, JobManualReview} then
      var job := q.jobs[j];
      if job.attempts + 1 > job.maxAttempts then Err(Constraint)
      else Ok(Put(q, j, job.(status := status, lock := None, attempts := job.attempts + 1,
                             nextAttemptAt := nextAttemptAt)))
    else Err(NoRows)
  }

  function ManualRetry(q: Queue, j: nat, version: nat, now: Time): Result<Queue> {
    if j < |q.jobs| && q.jobs[j].version == version
       && q.jobs[j].status in {JobAmbiguous, JobManualReview, JobPermanentFailed, JobRetryableFailed}
    then
      var job := q.jobs[j];
      Ok(Put(q, j, job.(
        status := JobPending, nextAttemptAt := now, resolution := RetryRequested,
        maxAttempts := if job.maxAttempts > job.attempts + 1 then job.maxAttempts else job.attempts + 1)))
    else Err(NoRows)
  }

  function ManualComplete(q: Queue, j: nat, version: nat, message: int): Result<Queue> {
    if j < |q.jobs| && q.jobs[j].version == version && q.jobs[j].status in {JobAmbiguous, JobManualReview} then
      Ok(Put(q, j, q.jobs[j].(status := JobCompleted, message := Some(message), resolution := MarkedDelivered)))
    else Err(NoRows)
  }

  predicate IsStale(job: Job, before: Time) {
    job.status == JobProcessing && job.lock.Some? && job.lock.value.at < before
  }

  // ---------- what every commit keeps ----------

  type Log = map<AttemptKey, AttemptRow>

  const OUTCOMES := {Succeeded, FailedRetryable, FailedAmbiguous, FailedPermanent}

  /** The outcomes the log records for one attempt number. */
  function Outcomes(log: Log, j: nat, number: nat): set<AttemptStatus> {
    set s | s in OUTCOMES && AttemptKey(j, number, s) in log
  }

  /** The manual retries of a job: rows an administrator wrote after verifying
      that nothing was delivered. */
  function Retries(log: Log, j: nat): set<AttemptKey> {
    set k | k in log && k.job == j && k.status == ManualResolution && log[k].code == NOT_DELIVERED
  }

  /** The sends that began and were not finalised as retryable: each of them
      may have delivered the message. */
  function Opened(log: Log, j: nat): set<AttemptKey> {
    set k | k in log && k.job == j && k.status == Started && AttemptKey(j, k.number, FailedRetryable) !in log
  }

  /** A job whose next send can be started without a new manual retry. */
  predicate Restartable(job: Job) {
    job.status in {JobPending, JobRetryableFailed} || (job.status == JobProcessing && !IsSending(job))
  }

  /** Every attempt number up to attempts has exactly one outcome, except the
      newest one exactly while the job is sending; nothing is logged beyond. */
  ghost predicate LogOk(job: Job, log: Log, j: nat) {
    && (forall n: nat :: 1 <= n <= job.attempts && !(IsSending(job) && n == job.attempts) ==>
        |Outcomes(log, j, n)| == 1)
    && (IsSending(job) ==>
        job.attempts >= 1 && Outcomes(log, j, job.attempts) == {} && AttemptKey(j, job.attempts, Started) in log)
    && (forall k :: k in log && k.job == j ==>
          1 <= k.number <= (if k.status == ManualResolution then job.attempts + 1 else job.attempts))
    && (forall k :: k in log && k.job == j && k.status == Succeeded ==> job.status == JobCompleted)
  }

  /** The attempt budget, and the bound on sends that may have delivered. */
  ghost predicate BudgetOk(job: Job, log: Log, j: nat) {
    && (job.status == JobProcessing <==> job.lock.Some?)
    && job.attempts <= job.maxAttempts <= job.granted + |Retries(log, j)|
    && (job.status == JobProcessing && !IsSending(job) ==> job.attempts < job.maxAttempts)
    && |Opened(log, j)| <= |Retries(log, j)| + (if Restartable(job) then 0 else 1)
  }

  ghost predicate JobOk(job: Job, log: Log, j: nat) {
    LogOk(job, log, j) && BudgetOk(job, log, j)
  }

  ghost predicate QueueOk(q: Queue) {
    && (forall j :: 0 <= j < |q.jobs| ==> JobOk(q.jobs[j], q.attempts, j))
    && (forall j, i :: 0 <= j < i < |q.jobs| ==> q.jobs[j].order != q.jobs[i].order)
    && (forall k :: k in q.attempts ==> k.job < |q.jobs|)
  }

  /** The log keeps its rows, and none of the new ones is a manual retry. */
  ghost predicate NoRetryRows(log: Log, log': Log) {
    && log.Keys <= log'.Keys
    && (forall k :: k in log ==> log'[k] == log[k])
    && (forall k :: k in log' && k !in log ==> k.status != ManualResolution || log'[k].code != NOT_DELIVERED)
  }

  lemma SameRetries(log: Log, log': Log, j: nat)
    requires NoRetryRows(log, log')
    ensures Retries(log', j) == Retries(log, j)
  {
    forall k
      ensures k in Retries(log', j) <==> k in Retries(log, j)
    {
      if k in log {
        assert log'[k] == log[k];
      }
    }
  }

  /** The rows of one job are the same in both logs. */
  ghost predicate SameRows(log: Log, log': Log, j: nat) {
    forall k: AttemptKey :: k.job == j ==>
      (k in log' <==> k in log) && (k in log ==> log'[k] == log[k])
  }

  lemma SameRowsSameSets(log: Log, log': Log, j: nat)
    requires SameRows(log, log', j)
    ensures Retries(log', j) == Retries(log, j)
    ensures Opened(log', j) == Opened(log, j)
    ensures forall n: nat :: Outcomes(log', j, n) == Outcomes(log, j, n)
  {
    forall n: nat
      ensures Outcomes(log', j, n) == Outcomes(log, j, n)
    {
      forall s
        ensures AttemptKey(j, n, s) in log' <==> AttemptKey(j, n, s) in log
      {
        assert AttemptKey(j, n, s).job == j;
      }
    }
  }

  lemma SameRowsSameJob(job: Job, log: Log, log': Log, j: nat)
    requires SameRows(log, log', j)
    requires JobOk(job, log, j)
    ensures JobOk(job, log', j)
  {
    SameRowsSameSets(log, log', j);
  }

  /** What one new row does to the three views of the log of its job. */
  lemma RowAdded(log: Log, key: AttemptKey, row: AttemptRow)
    requires key !in log
    ensures var log' := log[key := row];
            var j := key.job;
            && (forall n: nat :: Outcomes(log', j, n) ==
                  if n == key.number && key.status in OUTCOMES then Outcomes(log, j, n) + {key.status}
                    else Outcomes(log, j, n))
            && Retries(log', j) ==
                 (if key.status == ManualResolution && row.code == NOT_DELIVERED then Retries(log, j) + {key}
                  else Retries(log, j))
            && Opened(log', j) ==
                 (if key.status == FailedRetryable then Opened(log, j) - {AttemptKey(j, key.number, Started)}
                  else if key.status == Started && AttemptKey(j, key.number, FailedRetryable) !in log then
                    Opened(log, j) + {key}
                  else Opened(log, j))
            && (forall i: nat :: i != j ==> SameRows(log, log', i))
  {
    var log' := log[key := row];
    forall n: nat
      ensures Outcomes(log', key.job, n) ==
              if n == key.number && key.status in OUTCOMES then Outcomes(log, key.job, n) + {key.status}
                else Outcomes(log, key.job, n)
    {
    }
  }

  /** Only the row and the log of one job differ, and the job keeps its order. */
  ghost predicate OnlyJob(q: Queue, q': Queue, j: nat) {
    && j < |q.jobs|
    && |q'.jobs| == |q.jobs|
    && q'.jobs[j].order == q.jobs[j].order
    && q'.jobs[j].recipient == q.jobs[j].recipient
    && (forall i :: 0 <= i < |q.jobs| && i != j ==> q'.jobs[i] == q.jobs[i])
    && (forall i: nat :: i != j ==> SameRows(q.attempts, q'.attempts, i))
  }

  /** A queue stays sound when one job is rewritten soundly. */
  lemma QueueFrame(q: Queue, q': Queue, j: nat)
    requires QueueOk(q)
    requires OnlyJob(q, q', j)
    requires JobOk(q'.jobs[j], q'.attempts, j)
    ensures QueueOk(q')
  {
    forall i | 0 <= i < |q'.jobs|
      ensures JobOk(q'.jobs[i], q'.attempts, i)
    {
      if i != j {
        SameRowsSameJob(q.jobs[i], q.attempts, q'.attempts, i);
      }
    }
    forall k | k in q'.attempts
      ensures k.job < |q'.jobs|
    {
      if k.job != j {
        assert SameRows(q.attempts, q'.attempts, k.job);
      }
    }
    forall i, k | 0 <= i < k < |q'.jobs|
      ensures q'.jobs[i].order != q'.jobs[k].order
    {
      assert q'.jobs[i].order == q.jobs[i].order && q'.jobs[k].order == q.jobs[k].order;
    }
  }

  lemma InsertKeepsQueue(q: Queue, order: nat, maxAttempts: nat, now: Time, recipient: int)
    requires QueueOk(q)
    requires InsertJob(q, order, maxAttempts, now, recipient).Some?
    ensures QueueOk(InsertJob(q, order, maxAttempts, now, recipient).value)
  {
    var q' := InsertJob(q, order, maxAttempts, now, recipient).value;
    var j := |q.jobs|;
    assert Opened(q.attempts, j) == {} && Retries(q.attempts, j) == {};
    forall i | 0 <= i < |q'.jobs|
      ensures JobOk(q'.jobs[i], q'.attempts, i)
    {
      if i < j {
        assert JobOk(q.jobs[i], q.attempts, i);
      }
    }
  }

  // The rewrites of one job, each with the log row its transaction adds.

  /** The columns no rewrite but a manual retry or a used attempt changes. */
  predicate SameQuota(job: Job, job': Job) {
    && job'.order == job.order && job'.recipient == job.recipient && job'.granted == job.granted
    && job'.attempts == job.attempts && job'.maxAttempts == job.maxAttempts
  }

  /** Status changes that add no row: a claim, or the recovery of a stale claim. */
  lemma RelabelKeepsQueue(q: Queue, j: nat, job: Job)
    requires QueueOk(q)
    requires j < |q.jobs| && SameQuota(q.jobs[j], job)
    requires Restartable(q.jobs[j]) && Restartable(job)
    requires job.status == JobProcessing <==> job.lock.Some?
    requires job.status == JobProcessing ==> job.attempts < job.maxAttempts
    ensures OnlyJob(q, Put(q, j, job), j)
    ensures QueueOk(Put(q, j, job))
  {
    assert JobOk(q.jobs[j], q.attempts, j);
    QueueFrame(q, Put(q, j, job), j);
  }

  /** Nothing is logged beyond the attempts of a job that is not sending. */
  lemma NextNumberIsFresh(job: Job, log: Log, j: nat)
    requires LogOk(job, log, j) && job.status == JobProcessing && !IsSending(job)
    ensures forall k: AttemptKey :: k.job == j && k.number == job.attempts + 1 && k.status != ManualResolution ==>
            k !in log
    ensures Outcomes(log, j, job.attempts + 1) == {}
  {
  }

  /** A newest attempt without an outcome opens the log of its number. */
  lemma NewestIsOpen(job: Job, log: Log, j: nat)
    requires LogOk(job, log, j) && IsSending(job)
    ensures forall s :: s in OUTCOMES ==> AttemptKey(j, job.attempts, s) !in log
    ensures AttemptKey(j, job.attempts, Started) in Opened(log, j)
  {
    forall s | s in OUTCOMES
      ensures AttemptKey(j, job.attempts, s) !in log
    {
      assert s !in Outcomes(log, j, job.attempts);
    }
  }

  /** One job and its log when a send starts. */
  lemma BeginLog(job: Job, job': Job, log: Log, j: nat, row: AttemptRow)
    requires LogOk(job, log, j)
    requires job.status == JobProcessing && !IsSending(job) && IsSending(job')
    requires job'.attempts == job.attempts + 1
    ensures LogOk(job', log[AttemptKey(j, job'.attempts, Started) := row], j)
  {
    NextNumberIsFresh(job, log, j);
    RowAdded(log, AttemptKey(j, job'.attempts, Started), row);
  }

  lemma BeginBudget(job: Job, job': Job, log: Log, j: nat, row: AttemptRow)
    requires LogOk(job, log, j) && BudgetOk(job, log, j)
    requires job.status == JobProcessing && !IsSending(job) && IsSending(job')
    requires job'.attempts == job.attempts + 1 && job'.maxAttempts == job.maxAttempts && job'.granted == job.granted
    ensures var key := AttemptKey(j, job'.attempts, Started);
            && BudgetOk(job', log[key := row], j)
            && Opened(log[key := row], j) == Opened(log, j) + {key}
            && Retries(log[key := row], j) == Retries(log, j)
  {
    NextNumberIsFresh(job, log, j);
    RowAdded(log, AttemptKey(j, job'.attempts, Started), row);
  }

  /** The newest attempt number gets an outcome: the number of the send that
      ends, or the next number when the job fails before its send. */
  predicate Settles(job: Job, job': Job, outcome: AttemptStatus) {
    && (IsSending(job) || (job.status == JobProcessing && outcome != Succeeded))
    && job'.attempts == (if IsSending(job) then job.attempts else job.attempts + 1)
    && job'.maxAttempts == job.maxAttempts && job'.granted == job.granted
    && job'.lock == None && job'.status != JobProcessing
    && outcome in OUTCOMES
    && (outcome == Succeeded <==> job'.status == JobCompleted)
    && (Restartable(job') && IsSending(job) ==> outcome == FailedRetryable)
  }

  lemma SettleIsFresh(job: Job, job': Job, log: Log, j: nat, outcome: AttemptStatus)
    requires LogOk(job, log, j) && Settles(job, job', outcome)
    ensures Outcomes(log, j, job'.attempts) == {}
    ensures AttemptKey(j, job'.attempts, outcome) !in log
  {
    if IsSending(job) {
      NewestIsOpen(job, log, j);
    } else {
      NextNumberIsFresh(job, log, j);
    }
  }

  lemma SettleLog(job: Job, job': Job, log: Log, j: nat, outcome: AttemptStatus, row: AttemptRow)
    requires LogOk(job, log, j) && Settles(job, job', outcome)
    ensures LogOk(job', log[AttemptKey(j, job'.attempts, outcome) := row], j)
  {
    SettleIsFresh(job, job', log, j, outcome);
    RowAdded(log, AttemptKey(j, job'.attempts, outcome), row);
  }

  lemma SettleBudget(job: Job, job': Job, log: Log, j: nat, outcome: AttemptStatus, row: AttemptRow)
    requires LogOk(job, log, j) && BudgetOk(job, log, j) && Settles(job, job', outcome)
    ensures var log' := log[AttemptKey(j, job'.attempts, outcome) := row];
            && BudgetOk(job', log', j)
            && Opened(log', j) ==
                 (if outcome == FailedRetryable then Opened(log, j) - {AttemptKey(j, job'.attempts, Started)}
                  else Opened(log, j))
            && Retries(log', j) == Retries(log, j)
  {
    SettleIsFresh(job, job', log, j, outcome);
    RowAdded(log, AttemptKey(j, job'.attempts, outcome), row);
    if IsSending(job) {
      NewestIsOpen(job, log, j);
    } else {
      NextNumberIsFresh(job, log, j);
      assert AttemptKey(j, job'.attempts, Started) !in Opened(log, j);
    }
  }

  lemma WriteIsLocal(q: Queue, j: nat, job: Job, key: AttemptKey, row: AttemptRow)
    requires j < |q.jobs| && key.job == j && key !in q.attempts
    requires job.order == q.jobs[j].order && job.recipient == q.jobs[j].recipient
    ensures OnlyJob(q, q.(jobs := q.jobs[j := job], attempts := q.attempts[key := row]), j)
  {
    RowAdded(q.attempts, key, row);
  }

  /** Starting a send: the attempt opens, and its row can always be added. */
  lemma BeginKeepsQueue(q: Queue, j: nat, worker: string, row: AttemptRow)
    requires QueueOk(q)
    requires BeginSend(q, j, worker).Ok?
    ensures var q1 := BeginSend(q, j, worker).value;
            var key := AttemptKey(j, q1.jobs[j].attempts, Started);
            && key !in q.attempts
            && var q' := q1.(attempts := q1.attempts[key := row]);
            && OnlyJob(q, q', j)
            && QueueOk(q')
            && Opened(q'.attempts, j) == Opened(q.attempts, j) + {key}
            && Retries(q'.attempts, j) == Retries(q.attempts, j)
  {
    var job := q.jobs[j];
    var job' := BeginSend(q, j, worker).value.jobs[j];
    var key := AttemptKey(j, job'.attempts, Started);
    var q' := q.(jobs := q.jobs[j := job'], attempts := q.attempts[key := row]);
    assert JobOk(job, q.attempts, j);
    assert key !in q.attempts by {
      NextNumberIsFresh(job, q.attempts, j);
    }
    BeginBudget(job, job', q.attempts, j, row);
    assert JobOk(job', q'.attempts, j) by {
      BeginLog(job, job', q.attempts, j, row);
    }
    assert OnlyJob(q, q', j) by {
      WriteIsLocal(q, j, job', key, row);
    }
    QueueFrame(q, q', j);
  }

  /** The newest attempt number gets its one outcome. */
  lemma SettleKeepsQueue(q: Queue, j: nat, job: Job, outcome: AttemptStatus, row: AttemptRow)
    requires QueueOk(q)
    requires j < |q.jobs| && Settles(q.jobs[j], job, outcome)
    requires job.order == q.jobs[j].order && job.recipient == q.jobs[j].recipient
    ensures var key := AttemptKey(j, job.attempts, outcome);
            && key !in q.attempts
            && var q' := q.(jobs := q.jobs[j := job], attempts := q.attempts[key := row]);
            && OnlyJob(q, q', j)
            && QueueOk(q')
            && Opened(q'.attempts, j) ==
                 (if outcome == FailedRetryable then Opened(q.attempts, j) - {AttemptKey(j, job.attempts, Started)}
                  else Opened(q.attempts, j))
            && Retries(q'.attempts, j) == Retries(q.attempts, j)
  {
    var key := AttemptKey(j, job.attempts, outcome);
    var q' := q.(jobs := q.jobs[j := job], attempts := q.attempts[key := row]);
    assert JobOk(q.jobs[j], q.attempts, j);
    SettleIsFresh(q.jobs[j], job, q.attempts, j, outcome);
    SettleBudget(q.jobs[j], job, q.attempts, j, outcome, row);
    assert JobOk(job, q'.attempts, j) by {
      SettleLog(q.jobs[j], job, q.attempts, j, outcome, row);
    }
    assert OnlyJob(q, q', j) by {
      WriteIsLocal(q, j, job, key, row);
    }
    QueueFrame(q, q', j);
  }

  /** Finishing a send. Only a retryable outcome closes the attempt and lets the
      job be claimed again. */
  lemma FinishKeepsQueue(q: Queue, j: nat, job: Job, outcome: AttemptStatus, row: AttemptRow)
    requires QueueOk(q)
    requires j < |q.jobs| && IsSending(q.jobs[j]) && SameQuota(q.jobs[j], job)
    requires job.lock == None
    requires || (outcome == Succeeded && job.status == JobCompleted)
             || (outcome == FailedRetryable && job.status == JobRetryableFailed)
             || (outcome == FailedAmbiguous && job.status == JobAmbiguous)
             || (outcome == FailedPermanent && job.status == JobPermanentFailed)
    ensures var key := AttemptKey(j, job.attempts, outcome);
            && key !in q.attempts
            && var q' := Put(q, j, job).(attempts := q.attempts[key := row]);
            && OnlyJob(q, q', j)
            && QueueOk(q')
            && Opened(q'.attempts, j) ==
                 (if outcome == FailedRetryable then Opened(q.attempts, j) - {AttemptKey(j, job.attempts, Started)}
                  else Opened(q.attempts, j))
            && Retries(q'.attempts, j) == Retries(q.attempts, j)
  {
    SettleKeepsQueue(q, j, job.(version := job.version + 1), outcome, row);
  }

  /** Failing before the send: the attempt number is used up without a send. */
  lemma ClaimedFailureKeepsQueue(q: Queue, j: nat, worker: string, status: DeliveryStatus, nextAttemptAt: Time,
                                 outcome: AttemptStatus, row: AttemptRow)
    requires QueueOk(q)
    requires j < |q.jobs| && IsClaimed(q.jobs[j], worker)
    requires status in {JobRetryableFailed, JobPermanentFailed}
    requires outcome in {FailedRetryable, FailedAmbiguous, FailedPermanent}
    ensures MarkClaimedFailure(q, j, worker, status, nextAttemptAt).Ok?
    ensures var q1 := MarkClaimedFailure(q, j, worker, status, nextAttemptAt).value;
            var key := AttemptKey(j, q1.jobs[j].attempts, outcome);
            && key !in q.attempts
            && var q' := q1.(attempts := q1.attempts[key := row]);
            && OnlyJob(q, q', j)
            && QueueOk(q')
            && Retries(q'.attempts, j) == Retries(q.attempts, j)
  {
    assert JobOk(q.jobs[j], q.attempts, j);
    SettleKeepsQueue(q, j, MarkClaimedFailure(q, j, worker, status, nextAttemptAt).value.jobs[j], outcome, row);
  }

  /** A manual retry is logged once, and makes its job due at once and ever after. */
  lemma RetryKeepsQueue(q: Queue, j: nat, version: nat, now: Time)
    requires QueueOk(q)
    requires ManualRetry(q, j, version, now).Ok?
    requires AttemptKey(j, q.jobs[j].attempts + 1, ManualResolution) !in q.attempts
    ensures var key := AttemptKey(j, q.jobs[j].attempts + 1, ManualResolution);
            var q' := ManualRetry(q, j, version, now).value.(attempts :=
                                                             q.attempts[key := AttemptRow(NOT_DELIVERED, None)]);
            && OnlyJob(q, q', j)
            && QueueOk(q')
            && Retries(q'.attempts, j) == Retries(q.attempts, j) + {key}
            && Opened(q'.attempts, j) == Opened(q.attempts, j)
            && forall later :: later >= now ==> Due(q'.jobs[j], later)
  {
    var key := AttemptKey(j, q.jobs[j].attempts + 1, ManualResolution);
    var q' := ManualRetry(q, j, version, now).value.(attempts := q.attempts[key := AttemptRow(NOT_DELIVERED, None)]);
    assert JobOk(q.jobs[j], q.attempts, j);
    RowAdded(q.attempts, key, AttemptRow(NOT_DELIVERED, None));
    QueueFrame(q, q', j);
  }

  lemma CompleteKeepsQueue(q: Queue, j: nat, version: nat, message: int)
    requires QueueOk(q)
    requires ManualComplete(q, j, version, message).Ok?
    requires AttemptKey(j, q.jobs[j].attempts + 1, ManualResolution) !in q.attempts
    ensures var key := AttemptKey(j, q.jobs[j].attempts + 1, ManualResolution);
            var q' := ManualComplete(q, j, version, message).value.(attempts :=
                q.attempts[key := AttemptRow(WAS_DELIVERED, Some(message))]);
            && OnlyJob(q, q', j)
            && QueueOk(q')
            && Opened(q'.attempts, j) == Opened(q.attempts, j)
            && Retries(q'.attempts, j) == Retries(q.attempts, j)
  {
    var key := AttemptKey(j, q.jobs[j].attempts + 1, ManualResolution);
    var log := q.attempts[key := AttemptRow(WAS_DELIVERED, Some(message))];
    var q' := ManualComplete(q, j, version, message).value.(attempts := log);
    assert JobOk(q.jobs[j], q.attempts, j);
    RowAdded(q.attempts, key, AttemptRow(WAS_DELIVERED, Some(message)));
    QueueFrame(q, q', j);
  }
}
