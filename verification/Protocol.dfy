/** The delivery worker as a program counter, and what its position promises about
    the queue and the network. */
module Protocol {
  import opened Results
  import opened Domain
  import opened QueueTable
  import opened RetryDelay
  import opened SendLog

  /** What the sender answers: trusted evidence of a delivery, or an error. */
  datatype Answer = Confirmed(chat: int, message: int) | Failed(error: Option<SendError>)

  /** RunOnce handles its claimed jobs one after another, so a worker has at most
      one send in flight. todo is the rest of the batch; in Ready and Rejected its
      first job is the one at hand. */
  datatype Pc =
    | Idle
    | Working(todo: seq<nat>)
    | Ready(todo: seq<nat>)
    | Rejected(todo: seq<nat>, retryable: bool)
    | Begun(send: Send, todo: seq<nat>)
    | Waiting(send: Send, todo: seq<nat>)
    | Answered(send: Send, answer: Answer, todo: seq<nat>)
    | Preserving(send: Send, message: int)
    | Gone

  predicate InFlight(pc: Pc) {
    pc.Begun? || pc.Waiting? || pc.Answered? || pc.Preserving?
  }

  predicate SaysRetryable(answer: Answer) {
    answer.Failed? && answer.error.Some? && answer.error.value.result == Retryable
  }

  /** If the worker still owns a sending job, its send is the newest attempt. */
  ghost predicate OwnsNewest(q: Queue, w: string, s: Send) {
    s.job < |q.jobs| && (IsSendingBy(q.jobs[s.job], w) ==> q.jobs[s.job].attempts == s.number)
  }

  ghost predicate PcOk(q: Queue, net: Net, w: string, pc: Pc) {
    InFlight(pc) ==>
      && KeyOf(pc.send) in q.attempts
      && OwnsNewest(q, w, pc.send)
      && (pc.Begun? <==> pc.send !in net.issued)
      && (pc.Answered? && SaysRetryable(pc.answer) ==> pc.send in net.refused)
      && (pc.Answered? && pc.answer.Confirmed? ==> pc.send in net.delivered)
  }

  type Workers = map<string, Pc>

  ghost predicate PcsOk(q: Queue, net: Net, pcs: Workers) {
    && (forall w :: w in pcs ==> PcOk(q, net, w, pcs[w]))
    && (forall v, w :: v in pcs && w in pcs && v != w && InFlight(pcs[v]) && InFlight(pcs[w]) ==>
        pcs[v].send != pcs[w].send)
  }

  /** No send starts between two queues, and no job in flight changes hands. */
  ghost predicate NoNewSends(q: Queue, q': Queue) {
    && |q.jobs| <= |q'.jobs|
    && q.attempts.Keys <= q'.attempts.Keys
    && (forall j :: 0 <= j < |q.jobs| && IsSending(q'.jobs[j]) ==> q'.jobs[j] == q.jobs[j])
  }

  lemma PcsKept(q: Queue, q': Queue, net: Net, pcs: Workers)
    requires PcsOk(q, net, pcs)
    requires NoNewSends(q, q')
    ensures PcsOk(q', net, pcs)
  {
    forall w | w in pcs
      ensures PcOk(q', net, w, pcs[w])
    {
      assert PcOk(q, net, w, pcs[w]);
    }
  }

  /** A worker moves to a position that is not in flight, or stays with its send. */
  lemma PcMoves(q: Queue, net: Net, pcs: Workers, w: string, pc: Pc)
    requires PcsOk(q, net, pcs)
    requires w in pcs
    requires !InFlight(pc) || (InFlight(pcs[w]) && pc.send == pcs[w].send && PcOk(q, net, w, pc))
    ensures PcsOk(q, net, pcs[w := pc])
  {
    var pcs' := pcs[w := pc];
    forall v | v in pcs'
      ensures PcOk(q, net, v, pcs'[v])
    {
      if v != w {
        assert PcOk(q, net, v, pcs[v]);
      }
    }
  }

  // ---------- pace ----------

  /** earliest records, for a job that failed retryably, when its next send may
      start. The queue honours it: it is the job's due time, and once the job is
      claimed, the time its claim read has passed it. */
  ghost predicate PaceOk(job: Job, earliest: int, clock: int) {
    && (job.status in {JobPending, JobRetryableFailed} ==> job.nextAttemptAt >= earliest)
    && (job.status == JobProcessing && !IsSending(job) ==>
          clock >= earliest && (job.lock.Some? ==> job.lock.value.at >= earliest))
  }

  ghost predicate PacesOk(q: Queue, earliest: map<nat, int>, clock: int) {
    forall j :: j in earliest ==> j < |q.jobs| && PaceOk(q.jobs[j], earliest[j], clock)
  }

  lemma BeginIsPaced(q: Queue, earliest: map<nat, int>, clock: int, j: nat, worker: string)
    requires PacesOk(q, earliest, clock)
    requires BeginSend(q, j, worker).Ok?
    requires j in earliest
    ensures clock >= earliest[j]
  {
    assert PaceOk(q.jobs[j], earliest[j], clock);
  }

  // ---------- steps that are not the worker's own ----------

  /** A stale claim is recovered for a time after the one the claim was made at. */
  ghost predicate JobUndisturbed(job: Job, job': Job) {
    || job' == job
    || (&& job.status == JobProcessing && !IsSending(job) && job.lock.Some?
        && job'.status == JobRetryableFailed && job'.nextAttemptAt >= job.lock.value.at)
    || job'.status == JobAmbiguous
    || job'.status == JobCompleted
  }

  /** What recovery, administrators and every other transaction may do to the
      queue: recover stale jobs after their claims, resolve or retry by hand, add
      new jobs, and log rows that start no send and call none retryable. Only a
      retry by hand is logged as one. */
  ghost predicate Undisturbed(q: Queue, q': Queue, retried: Option<nat>) {
    && |q.jobs| <= |q'.jobs|
    && HarmlessRows(q.attempts, q'.attempts)
    && (retried.None? ==> NoRetryRows(q.attempts, q'.attempts))
    && (forall j :: 0 <= j < |q.jobs| && retried != Some(j) ==> JobUndisturbed(q.jobs[j], q'.jobs[j]))
    && (retried.Some? ==> retried.value < |q.jobs| && q'.jobs[retried.value].status == JobPending)
  }

  lemma UndisturbedKeeps(q: Queue, q': Queue, net: Net, pcs: Workers, earliest: map<nat, int>, clock: int,
                         retried: Option<nat>)
    requires NetOk(q.attempts, net) && PcsOk(q, net, pcs) && PacesOk(q, earliest, clock)
    requires Undisturbed(q, q', retried)
    ensures NetOk(q'.attempts, net)
    ensures PcsOk(q', net, pcs)
    ensures PacesOk(q', if retried.Some? then earliest - {retried.value} else earliest, clock)
  {
    HarmlessKeepsNet(q.attempts, q'.attempts, net);
    PcsKept(q, q', net, pcs);
    forall j | j in earliest && retried != Some(j)
      ensures j < |q'.jobs| && PaceOk(q'.jobs[j], earliest[j], clock)
    {
      assert PaceOk(q.jobs[j], earliest[j], clock);
      assert JobUndisturbed(q.jobs[j], q'.jobs[j]);
    }
  }

  lemma UndisturbedComposes(a: Queue, b: Queue, c: Queue)
    requires Undisturbed(a, b, None) && Undisturbed(b, c, None)
    ensures Undisturbed(a, c, None)
  {
    forall j | 0 <= j < |a.jobs|
      ensures JobUndisturbed(a.jobs[j], c.jobs[j])
    {
      assert JobUndisturbed(a.jobs[j], b.jobs[j]) && JobUndisturbed(b.jobs[j], c.jobs[j]);
    }
  }

  // ---------- the worker's own steps ----------

  ghost predicate JobClaimed(job: Job, job': Job, now: int) {
    || job' == job
    || (&& AutomaticallyClaimable(job.status) && job.nextAttemptAt <= now
        && job'.status == JobProcessing && !IsSending(job') && job'.lock.Some? && job'.lock.value.at == now)
  }

  lemma {:induction false} ClaimsAreDue(q: Queue, picked: seq<nat>, worker: string, now: int)
    ensures var q' := ClaimJobs(q, picked, worker, now);
            && |q'.jobs| == |q.jobs| && q'.attempts == q.attempts
            && forall j :: 0 <= j < |q.jobs| ==> JobClaimed(q.jobs[j], q'.jobs[j], now)
    decreases |picked|
  {
    if picked == [] {
    } else {
      var next := ClaimOne(q, picked[0], worker, now);
      ClaimsAreDue(next, picked[1..], worker, now);
      var q' := ClaimJobs(q, picked, worker, now);
      forall j | 0 <= j < |q.jobs|
        ensures JobClaimed(q.jobs[j], q'.jobs[j], now)
      {
        assert JobClaimed(next.jobs[j], q'.jobs[j], now);
      }
    }
  }

  /** A claim made with a time read before now, however long before. */
  lemma ClaimKeepsProtocol(q: Queue, net: Net, pcs: Workers, earliest: map<nat, int>, clock: int,
                           picked: seq<nat>, worker: string, now: int)
    requires NetOk(q.attempts, net) && PcsOk(q, net, pcs) && PacesOk(q, earliest, clock)
    requires now <= clock
    ensures var q' := ClaimJobs(q, picked, worker, now);
            NetOk(q'.attempts, net) && PcsOk(q', net, pcs) && PacesOk(q', earliest, clock)
  {
    ClaimsAreDue(q, picked, worker, now);
    var q' := ClaimJobs(q, picked, worker, now);
    forall j | 0 <= j < |q.jobs|
      ensures IsSending(q'.jobs[j]) ==> q'.jobs[j] == q.jobs[j]
    {
      assert JobClaimed(q.jobs[j], q'.jobs[j], now);
    }
    PcsKept(q, q', net, pcs);
    forall j | j in earliest
      ensures PaceOk(q'.jobs[j], earliest[j], clock)
    {
      assert PaceOk(q.jobs[j], earliest[j], clock) && JobClaimed(q.jobs[j], q'.jobs[j], now);
    }
  }

  /** One job changes and one row is logged. */
  ghost predicate OneRow(q: Queue, q': Queue, j: nat, key: AttemptKey) {
    && OnlyJob(q, q', j)
    && key !in q.attempts
    && q'.attempts.Keys == q.attempts.Keys + {key}
  }

  /** A send starts: the worker is in flight with the newest attempt, which no
      other worker is in flight with. */
  lemma BeginKeepsProtocol(q: Queue, q': Queue, net: Net, pcs: Workers, earliest: map<nat, int>, clock: int,
                           w: string, s: Send, todo: seq<nat>)
    requires NetOk(q.attempts, net) && PcsOk(q, net, pcs) && PacesOk(q, earliest, clock)
    requires w in pcs
    requires OneRow(q, q', s.job, KeyOf(s))
    requires AttemptKey(s.job, s.number, FailedRetryable) !in q.attempts
    requires IsSendingBy(q'.jobs[s.job], w) && q'.jobs[s.job].attempts == s.number
    ensures NetOk(q'.attempts, net)
    ensures PcsOk(q', net, pcs[w := Begun(s, todo)])
    ensures PacesOk(q', earliest, clock)
  {
    StartKeepsNet(q.attempts, q'.attempts, net, s);
    var pcs' := pcs[w := Begun(s, todo)];
    forall v | v in pcs'
      ensures PcOk(q', net, v, pcs'[v])
      ensures v != w && InFlight(pcs'[v]) ==> pcs'[v].send != s
    {
      if v != w {
        assert PcOk(q, net, v, pcs[v]);
      }
    }
    forall j | j in earliest
      ensures PaceOk(q'.jobs[j], earliest[j], clock)
    {
      assert PaceOk(q.jobs[j], earliest[j], clock);
    }
  }

  /** A job leaves the hands of its worker with an outcome. Only a refused send, or
      an attempt that started none, is called retryable; then the job waits at
      least until the new earliest time. */
  lemma SettleKeepsProtocol(q: Queue, q': Queue, net: Net, pcs: Workers, earliest: map<nat, int>, clock: int,
                            s: Send, outcome: AttemptStatus, due: Option<int>)
    requires NetOk(q.attempts, net) && PcsOk(q, net, pcs) && PacesOk(q, earliest, clock)
    requires OneRow(q, q', s.job, AttemptKey(s.job, s.number, outcome))
    requires outcome != Started
    requires q'.jobs[s.job].status != JobProcessing && q'.jobs[s.job].status != JobPending
    requires outcome == FailedRetryable && KeyOf(s) in q.attempts ==> s in net.refused
    requires q'.jobs[s.job].status == JobRetryableFailed ==> due.Some? && q'.jobs[s.job].nextAttemptAt >= due.value
    ensures NetOk(q'.attempts, net)
    ensures PcsOk(q', net, pcs)
    ensures PacesOk(q', if due.Some? then earliest[s.job := due.value] else earliest, clock)
  {
    if outcome == FailedRetryable {
      RetryableKeepsNet(q.attempts, q'.attempts, net, s);
    } else {
      HarmlessKeepsNet(q.attempts, q'.attempts, net);
    }
    PcsKept(q, q', net, pcs);
    forall j | j in earliest && j != s.job
      ensures PaceOk(q'.jobs[j], earliest[j], clock)
    {
      assert PaceOk(q.jobs[j], earliest[j], clock);
    }
  }

  // ---------- the network ----------

  /** The worker hands its send over. */
  lemma CallKeepsProtocol(q: Queue, net: Net, pcs: Workers, w: string)
    requires NetOk(q.attempts, net) && PcsOk(q, net, pcs)
    requires w in pcs && pcs[w].Begun?
    ensures var net' := net.(issued := net.issued + {pcs[w].send});
            NetOk(q.attempts, net') && PcsOk(q, net', pcs[w := Waiting(pcs[w].send, pcs[w].todo)])
  {
    var net' := net.(issued := net.issued + {pcs[w].send});
    var pcs' := pcs[w := Waiting(pcs[w].send, pcs[w].todo)];
    assert PcOk(q, net, w, pcs[w]);
    forall v | v in pcs'
      ensures PcOk(q, net', v, pcs'[v])
    {
      if v != w {
        assert PcOk(q, net, v, pcs[v]);
      }
    }
  }

  /** The network delivers an issued message, at any time, unless it was refused. */
  lemma DeliverKeepsProtocol(q: Queue, net: Net, pcs: Workers, s: Send)
    requires NetOk(q.attempts, net) && PcsOk(q, net, pcs)
    requires s in net.issued && s !in net.refused
    ensures var net' := net.(delivered := net.delivered + {s});
            NetOk(q.attempts, net') && PcsOk(q, net', pcs)
  {
    var net' := net.(delivered := net.delivered + {s});
    forall w | w in pcs
      ensures PcOk(q, net', w, pcs[w])
    {
      assert PcOk(q, net, w, pcs[w]);
    }
  }

  /** The sender answers truthfully: a confirmation only for a delivered message, a
      retryable error only for one that is and stays undelivered. */
  predicate Truthful(net: Net, s: Send, answer: Answer) {
    && (answer.Confirmed? ==> s in net.delivered)
    && (SaysRetryable(answer) ==> s !in net.delivered)
  }

  lemma ReplyKeepsProtocol(q: Queue, net: Net, pcs: Workers, w: string, answer: Answer)
    requires NetOk(q.attempts, net) && PcsOk(q, net, pcs)
    requires w in pcs && pcs[w].Waiting?
    requires Truthful(net, pcs[w].send, answer)
    ensures var net' := if SaysRetryable(answer) then net.(refused := net.refused + {pcs[w].send}) else net;
            NetOk(q.attempts, net') && PcsOk(q, net', pcs[w := Answered(pcs[w].send, answer, pcs[w].todo)])
  {
    var net' := if SaysRetryable(answer) then net.(refused := net.refused + {pcs[w].send}) else net;
    var pcs' := pcs[w := Answered(pcs[w].send, answer, pcs[w].todo)];
    assert PcOk(q, net, w, pcs[w]);
    forall v | v in pcs'
      ensures PcOk(q, net', v, pcs'[v])
    {
      if v != w {
        assert PcOk(q, net, v, pcs[v]);
      }
    }
  }
}
