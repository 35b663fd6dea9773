/** The store as the program has it: one object whose transactions change its rows
    statement by statement and roll everything back on an error. Each method is
    proved against the transaction function of the same name. */
module AppStore {
  import opened Results
  import opened Domain
  import opened Database
  import opened GateTable
  import opened QueueTable
  import opened SalesTable
  import opened StockTable
  import opened TillTable
  import opened WalletTable
  import D = Delivery
  import A = DeliveryAdmin
  import O = OrderStore
  import P = PaymentAcceptance
  import W = WalletStore
  import I = InventoryStore
  import M = PaymentAdmin
  import Text

  /** A transaction that failed left no trace; one that committed has the state and
      the answer of its specification. */
  ghost predicate Committed<T(!new)>(spec: Result<(Db, T)>, before: Db, after: Db, r: Result<T>) {
    match spec
    case Ok(done) => after == done.0 && r == Ok(done.1)
    case Err(e) => after == before && r == Err(e)
  }

  /** Inside a transaction: an error may leave partial writes behind. */
  ghost predicate Reached<T(!new)>(spec: Result<(Db, T)>, after: Db, r: Result<T>) {
    match spec
    case Ok(done) => after == done.0 && r == Ok(done.1)
    case Err(e) => r == Err(e)
  }

  /** A specification that answers nothing but success. */
  function Plain(spec: Result<Db>): Result<(Db, ())> {
    match spec
    case Ok(db) => Ok((db, ()))
    case Err(e) => Err(e)
  }

  /** At most one job changes, and it is stale no more. */
  ghost predicate Handled(q: Queue, q': Queue, j: nat, staleBefore: int) {
    if j < |q.jobs| && IsStale(q.jobs[j], staleBefore) then
      |q'.jobs| == |q.jobs| && q'.jobs == q.jobs[j := q'.jobs[j]] && !IsStale(q'.jobs[j], staleBefore)
    else q' == q
  }

  lemma RecoveredIsHandled(q: Queue, j: nat, now: int, staleBefore: int)
    requires j < |q.jobs| && IsStale(q.jobs[j], staleBefore)
    ensures D.RecoverOne(q, j, now).Ok? ==> Handled(q, D.RecoverOne(q, j, now).value, j, staleBefore)
  {
  }

  /** One picked job is dealt with: it leaves the stale jobs of its stage. */
  lemma OneRecovered(q: Queue, q': Queue, picked: seq<nat>, staleBefore: int, stage: Stage)
    requires picked != [] && Handled(q, q', picked[0], staleBefore)
    ensures |D.StaleIn(q, picked, staleBefore, stage)| ==
            |D.StaleIn(q', picked[1..], staleBefore, stage)|
            + if picked[0] < |q.jobs| && IsStale(q.jobs[picked[0]], staleBefore)
                 && q.jobs[picked[0]].lock.value.stage == stage then 1 else 0
  {
    var all, rest := D.StaleIn(q, picked, staleBefore, stage), D.StaleIn(q', picked[1..], staleBefore, stage);
    assert picked == [picked[0]] + picked[1..];
    assert picked[0] !in rest;
    forall j: nat
      ensures j in rest <==> j in all && j != picked[0]
    {
      if j < |q.jobs| && j != picked[0] {
        assert q'.jobs[j] == q.jobs[j];
      }
    }
    assert rest == all - {picked[0]};
  }

  class AppStore {
    var gate: Gate
    var sales: Sales
    var stock: Stock
    var queue: Queue
    var till: Till
    var wallets: Wallets

    function State(): Db
      reads this
    {
      Db(gate, sales, stock, queue, till, wallets)
    }

    constructor (db: Db)
      ensures State() == db
    {
      gate, sales, stock, queue, till, wallets := db.gate, db.sales, db.stock, db.queue, db.till, db.wallets;
    }

    /** The rollback of WithinTransaction. */
    method Rollback(before: Db)
      modifies this
      ensures State() == before
    {
      gate, sales, stock := before.gate, before.sales, before.stock;
      queue, till, wallets := before.queue, before.till, before.wallets;
    }

    // ---------- statements shared by several transactions ----------

    /** A guarded status update and its history row. */
    method MoveOrder(o: nat, from: OrderStatus, to: OrderStatus, reason: string) returns (r: Result<()>)
      modifies this`sales
      ensures match Move(old(sales), o, from, to, reason)
              case Ok(next) => r == Ok(()) && sales == next
              case Err(e) => r == Err(e) && sales == old(sales)
    {
      if o >= |sales.orders| || sales.orders[o].status != from {
        return Err(NoRows);
      }
      var row := sales.orders[o];
      sales := sales.(orders := sales.orders[o := row.(status := to, version := row.version + 1)]);
      sales := InsertHistory(sales, o, Some(from), to, reason);
      r := Ok(());
    }

    method PassThroughPaid(o: nat, paid: string, reserving: string) returns (r: Result<()>)
      modifies this`sales
      ensures match SalesTable.PassThroughPaid(old(sales), o, paid, reserving)
              case Ok(next) => r == Ok(()) && sales == next
              case Err(e) => r == Err(e)
    {
      r := MoveOrder(o, PendingPayment, Paid, paid);
      if r.Ok? {
        r := MoveOrder(o, Paid, Reserving, reserving);
      }
    }

    /** The loop that inserts one mapping for each claimed item, in any order. */
    method MapItems(o: nat, claimed: set<nat>) returns (r: Result<()>)
      modifies this`stock
      ensures match InsertMappings(old(stock), o, claimed)
              case Ok(next) => r == Ok(()) && stock == next
              case Err(e) => r == Err(e)
    {
      var left := claimed;
      ghost var start := stock;
      while left != {}
        invariant left <= claimed
        invariant stock == Mapped(start, o, claimed - left)
        invariant forall i :: i in claimed - left ==> !Taken(start, o, i)
        decreases |left|
      {
        var i :| i in left;
        MappingsSoFar(start, o, claimed, left, i);
        var inserted := InsertMapping(stock, o, i);
        if inserted.Err? {
          return Err(inserted.Why());
        }
        stock := inserted.value;
        left := left - {i};
      }
      assert claimed - left == claimed;
      r := Ok(());
    }

    /** completeReceipt. */
    method FinishUpdate(update: nat) returns (r: Result<()>)
      modifies this`gate
      ensures match CompleteReceipt(old(gate), update)
              case Ok(next) => r == Ok(()) && gate == next
              case Err(e) => r == Err(e) && gate == old(gate)
    {
      if !Processing(gate, update) {
        return Err(DuplicateUpdate);
      }
      gate := gate.(receipts := gate.receipts[update := ReceiptCompleted]);
      r := Ok(());
    }

    /** finishSession, then completeReceipt. */
    method LeaveSession(ticket: Ticket, update: nat, now: int) returns (r: Result<()>)
      modifies this`gate
      ensures match Leave(old(gate), ticket, update, now)
              case Ok(next) => r == Ok(()) && gate == next
              case Err(e) => r == Err(e)
    {
      if !Live(gate, ticket, now) {
        return Err(StaleVersion);
      }
      gate := gate.(sessions :=
                    gate.sessions[ticket.session := Session(ticket.admin, SESSION_COMPLETED, now, ticket.version + 1)]);
      r := FinishUpdate(update);
    }

    // ---------- update receipts and sessions ----------

    method ClaimUpdate(update: nat, now: int, staleBefore: int) returns (claim: UpdateClaim)
      modifies this`gate
      ensures (gate, claim) == GateTable.ClaimUpdate(old(gate), update, now, staleBefore)
    {
      if update in gate.receipts {
        match gate.receipts[update] {
          case ReceiptCompleted => return DuplicateCompleted;
          case ReceiptProcessing(startedAt) =>
            if startedAt > staleBefore {
              return DuplicateProcessing;
            }
          case _ =>
        }
      }
      gate := gate.(receipts := gate.receipts[update := ReceiptProcessing(now)]);
      claim := UpdateClaimed;
    }

    method FailUpdate(update: nat) returns (r: Result<()>)
      modifies this`gate
      ensures match GateTable.FailUpdate(old(gate), update)
              case Ok(next) => r == Ok(()) && gate == next
              case Err(e) => r == Err(e) && gate == old(gate)
    {
      if !Processing(gate, update) {
        return Err(DuplicateUpdate);
      }
      gate := gate.(receipts := gate.receipts[update := ReceiptFailed]);
      r := Ok(());
    }

    /** One session of each administrator: it is restarted, or created. */
    method StartSession(admin: nat, state: string, expiresAt: int, update: nat) returns (r: Result<()>)
      modifies this`gate
      ensures match BeginSession(old(gate), admin, state, expiresAt, update)
              case Ok(next) => r == Ok(()) && gate == next
              case Err(e) => r == Err(e) && gate == old(gate)
    {
      var before := gate;
      if !Manages(gate, admin) {
        return Err(Forbidden);
      }
      var found := FindSession(gate, admin);
      if found.Some? {
        var s := found.value;
        gate := gate.(sessions := gate.sessions[s := Session(admin, state, expiresAt, gate.sessions[s].version + 1)]);
      } else {
        gate := gate.(sessions := gate.sessions + [Session(admin, state, expiresAt, 1)]);
      }
      r := FinishUpdate(update);
      if r.Err? {
        gate := before;
      }
    }

    method AdvanceSession(ticket: Ticket, state: string, expiresAt: int, update: nat, now: int) returns (r: Result<()>)
      modifies this`gate
      ensures match ContinueSession(old(gate), ticket, state, expiresAt, update, now)
              case Ok(next) => r == Ok(()) && gate == next
              case Err(e) => r == Err(e) && gate == old(gate)
    {
      var before := gate;
      var admitted := AdmitToCatalog(gate, ticket, "", now);
      if admitted.Fail? {
        return Err(admitted.error);
      }
      if !Live(gate, ticket, now) {
        return Err(StaleVersion);
      }
      gate := gate.(sessions :=
                    gate.sessions[ticket.session := Session(ticket.admin, state, expiresAt, ticket.version + 1)]);
      r := FinishUpdate(update);
      if r.Err? {
        gate := before;
      }
    }

    method CancelSession(ticket: Ticket, update: nat, now: int) returns (r: Result<()>)
      modifies this`gate
      ensures match GateTable.CancelSession(old(gate), ticket, update, now)
              case Ok(next) => r == Ok(()) && gate == next
              case Err(e) => r == Err(e) && gate == old(gate)
    {
      var before := gate;
      var admitted := AdmitToCatalog(gate, ticket, "", now);
      if admitted.Fail? {
        return Err(admitted.error);
      }
      if !Live(gate, ticket, now) {
        return Err(StaleVersion);
      }
      gate := gate.(sessions :=
                    gate.sessions[ticket.session := Session(ticket.admin, SESSION_CANCELLED, now, ticket.version + 1)]);
      r := FinishUpdate(update);
      if r.Err? {
        gate := before;
      }
    }

    // ---------- delivery ----------

    /** createDeliveryHandoffWithinTransaction. */
    method Handoff(o: nat, now: int, maxAttempts: nat) returns (r: Result<bool>)
      modifies this`queue, this`sales
      ensures Reached(D.Handoff(old(State()), o, now, maxAttempts), State(), r)
    {
      if maxAttempts == 0 {
        return Err(InvalidInput);
      }
      if o >= |sales.orders| || sales.orders[o].user >= |sales.users| {
        return Err(NoRows);
      }
      var row := sales.orders[o];
      var chat := sales.users[row.user].chat;
      if row.status == Delivering {
        if FindByOrder(queue, o).None? {
          return Err(NoRows);
        }
        return Ok(false);
      }
      if row.status != Reserving || chat <= 0 || row.quantity <= 0 {
        return Err(InvalidDeliveryState);
      }
      if |Deliverable(stock, o)| != row.quantity {
        return Err(DeliveryInventoryMismatch);
      }
      var inserted := InsertJob(queue, o, maxAttempts, now, chat);
      if inserted.None? {
        if FindByOrder(queue, o).None? {
          return Err(NoRows);
        }
        return Ok(false);
      }
      queue := inserted.value;
      var moved := MoveOrder(o, Reserving, Delivering, "delivery_job_created");
      if moved.Err? {
        return Err(moved.Why());
      }
      r := Ok(true);
    }

    /** The loop over the orders to backfill; picked rows that do not qualify are not
        selected. */
    method BackfillBody(picked: seq<nat>, now: int, maxAttempts: nat) returns (r: Result<nat>)
      modifies this`queue, this`sales
      ensures Reached(D.Backfill(old(State()), picked, now, maxAttempts), State(), r)
    {
      var created := 0;
      var k := 0;
      ghost var spec := D.Backfill(State(), picked, now, maxAttempts);
      while k < |picked|
        invariant 0 <= k <= |picked|
        invariant gate == old(gate) && stock == old(stock) && till == old(till) && wallets == old(wallets)
        invariant match D.Backfill(State(), picked[k..], now, maxAttempts)
                  case Ok((db, more)) => spec == Ok((db, created + more))
                  case Err(e) => spec == Err(e)
      {
        assert picked[k..][0] == picked[k] && picked[k..][1..] == picked[k + 1..];
        if D.Backlogged(State(), picked[k]) {
          var inserted := Handoff(picked[k], now, maxAttempts);
          if inserted.Err? {
            return Err(inserted.Why());
          }
          if inserted.value {
            created := created + 1;
          }
        }
        k := k + 1;
      }
      r := Ok(created);
    }

    method BackfillDeliveryJobs(picked: seq<nat>, now: int, maxAttempts: nat) returns (r: Result<nat>)
      modifies this
      ensures Committed(D.Backfill(old(State()), picked, now, maxAttempts), old(State()), State(), r)
    {
      var before := State();
      r := BackfillBody(picked, now, maxAttempts);
      if r.Err? {
        Rollback(before);
      }
    }

    /** One stale job: an update and, for a sending job, its log row. */
    method RecoverJob(j: nat, now: int) returns (r: Result<()>)
      requires j < |queue.jobs|
      modifies this`queue
      ensures match D.RecoverOne(old(queue), j, now)
              case Ok(next) => r == Ok(()) && queue == next
              case Err(e) => r == Err(e)
    {
      var job := queue.jobs[j];
      if IsSending(job) {
        var ambiguous := job.(status := JobAmbiguous, lock := None, version := job.version + 1);
        queue := queue.(jobs := queue.jobs[j := ambiguous]);
        var logged := InsertAttempt(queue, AttemptKey(j, job.attempts, FailedAmbiguous),
                                    AttemptRow("stale_after_send_started", None));
        if logged.Err? {
          return Err(logged.Why());
        }
        queue := logged.value;
      } else {
        var marked := MarkStaleClaimRetryable(queue, j, now);
        if marked.Err? {
          return Err(marked.Why());
        }
        queue := marked.value;
      }
      r := Ok(());
    }

    /** RecoverStaleDeliveryJobs; a job picked twice is stale only the first time. */
    method RecoverStaleDeliveryJobs(picked: seq<nat>, now: int, staleBefore: int) returns (r: Result<D.Recovery>)
      modifies this`queue
      ensures match D.RecoverStale(old(queue), picked, now, staleBefore)
              case Ok(next) =>
                && queue == next
                && r == Ok(D.Recovery(|D.StaleIn(old(queue), picked, staleBefore, Sending)|,
                                      |D.StaleIn(old(queue), picked, staleBefore, Claimed)|))
              case Err(e) => r == Err(e) && queue == old(queue)
    {
      var before := queue;
      var ambiguous, retryable := 0, 0;
      var k := 0;
      while k < |picked|
        invariant 0 <= k <= |picked|
        invariant D.RecoverStale(queue, picked[k..], now, staleBefore)
                  == D.RecoverStale(before, picked, now, staleBefore)
        invariant ambiguous + |D.StaleIn(queue, picked[k..], staleBefore, Sending)|
                  == |D.StaleIn(before, picked, staleBefore, Sending)|
        invariant retryable + |D.StaleIn(queue, picked[k..], staleBefore, Claimed)|
                  == |D.StaleIn(before, picked, staleBefore, Claimed)|
      {
        var j := picked[k];
        assert picked[k..][0] == j && picked[k..][1..] == picked[k + 1..];
        ghost var was := queue;
        if j < |queue.jobs| && IsStale(queue.jobs[j], staleBefore) {
          var sending := IsSending(queue.jobs[j]);
          RecoveredIsHandled(queue, j, now, staleBefore);
          var recovered := RecoverJob(j, now);
          if recovered.Err? {
            queue := before;
            return Err(recovered.Why());
          }
          if sending {
            ambiguous := ambiguous + 1;
          } else {
            retryable := retryable + 1;
          }
        }
        OneRecovered(was, queue, picked[k..], staleBefore, Sending);
        OneRecovered(was, queue, picked[k..], staleBefore, Claimed);
        k := k + 1;
      }
      r := Ok(D.Recovery(ambiguous, retryable));
    }

    /** ClaimDeliveryJobs, one selected row at a time: the rows it answers with are
        the ones it claimed. */
    method ClaimDeliveryJobs(picked: seq<nat>, worker: string, now: int) returns (rows: seq<nat>)
      modifies this`queue
      ensures queue == ClaimJobs(old(queue), picked, worker, now)
      ensures rows == ClaimedRows(old(queue), picked, worker, now)
    {
      rows := [];
      var k := 0;
      while k < |picked|
        invariant 0 <= k <= |picked|
        invariant ClaimJobs(queue, picked[k..], worker, now) == ClaimJobs(old(queue), picked, worker, now)
        invariant rows + ClaimedRows(queue, picked[k..], worker, now) == ClaimedRows(old(queue), picked, worker, now)
      {
        var j := picked[k];
        assert picked[k..][0] == j && picked[k..][1..] == picked[k + 1..];
        if j < |queue.jobs| && Due(queue.jobs[j], now) {
          var job := queue.jobs[j];
          queue := queue.(jobs :=
                          queue.jobs[j := job.(status := JobProcessing, lock := Some(Lock(Claimed, worker, now)),
                                                       version := job.version + 1)]);
          rows := rows + [j];
        }
        k := k + 1;
      }
    }

    method BeginDeliveryAttempt(j: nat, worker: string) returns (r: Result<nat>)
      modifies this`queue
      ensures Committed(D.BeginAttempt(old(State()), j, worker), old(State()), State(), r)
    {
      var before := queue;
      if j >= |queue.jobs| || !IsClaimed(queue.jobs[j], worker) || queue.jobs[j].attempts >= queue.jobs[j].maxAttempts {
        return Err(DeliveryLeaseLost);
      }
      var job := queue.jobs[j];
      var number := job.attempts + 1;
      queue := queue.(jobs :=
                      queue.jobs[j := job.(lock := Some(job.lock.value.(stage := Sending)), attempts := number,
                                           version := job.version + 1)]);
      var logged := InsertAttempt(queue, AttemptKey(j, number, Started), AttemptRow("", None));
      if logged.Err? {
        queue := before;
        return Err(logged.Why());
      }
      queue := logged.value;
      r := Ok(number);
    }

    method FinalizeSuccessBody(j: nat, worker: string, evidence: D.Evidence) returns (r: Result<()>)
      modifies this
      ensures Reached(Plain(D.FinalizeSuccess(old(State()), j, worker, evidence)), State(), r)
    {
      if j >= |queue.jobs| {
        return Err(NoRows);
      }
      var job := queue.jobs[j];
      if job.status == JobCompleted {
        return Ok(());
      }
      if !IsSendingBy(job, worker) {
        return Err(DeliveryLeaseLost);
      }
      if job.order >= |sales.orders| {
        return Err(NoRows);
      }
      var order := sales.orders[job.order];
      if order.status != Delivering || evidence.chat != job.recipient || evidence.message <= 0 {
        return Err(InvalidDeliveryState);
      }
      var (sold, items) := SellExact(stock, job.order, order.quantity);
      stock := sold;
      if |items| != order.quantity {
        return Err(DeliveryInventoryMismatch);
      }
      var delivered := MoveOrder(job.order, Delivering, Delivered, "telegram_delivery_confirmed");
      if delivered.Err? {
        return Err(delivered.Why());
      }
      queue := queue.(jobs :=
                      queue.jobs[j := job.(status := JobCompleted, lock := None, message := Some(evidence.message),
                                           version := job.version + 1)]);
      var logged := InsertAttempt(queue, AttemptKey(j, job.attempts, Succeeded),
                                  AttemptRow("", Some(evidence.message)));
      if logged.Err? {
        return Err(logged.Why());
      }
      queue := logged.value;
      r := Ok(());
    }

    method FinalizeDeliverySuccess(j: nat, worker: string, evidence: D.Evidence) returns (r: Result<()>)
      modifies this
      ensures Committed(Plain(D.FinalizeSuccess(old(State()), j, worker, evidence)), old(State()), State(), r)
    {
      var before := State();
      r := FinalizeSuccessBody(j, worker, evidence);
      if r.Err? {
        Rollback(before);
      }
    }

    /** markOrderDeliveryFailed. */
    method MarkOrderFailed(o: nat, reason: string) returns (r: Result<()>)
      modifies this`sales
      ensures match D.MarkOrderFailed(old(sales), o, reason)
              case Ok(next) => r == Ok(()) && sales == next
              case Err(e) => r == Err(e)
    {
      if o >= |sales.orders| || sales.orders[o].status != Delivering {
        return Err(InvalidDeliveryState);
      }
      r := MoveOrder(o, Delivering, DeliveryFailed, reason);
    }

    method FinalizeFailureBody(j: nat, worker: string, failure: D.Failure) returns (r: Result<()>)
      modifies this`queue, this`sales
      ensures Reached(Plain(D.FinalizeFailure(old(State()), j, worker, failure)), State(), r)
    {
      if j >= |queue.jobs| {
        return Err(NoRows);
      }
      var job := queue.jobs[j];
      if !IsSendingBy(job, worker) {
        return Err(DeliveryLeaseLost);
      }
      var logged := InsertAttempt(queue, AttemptKey(j, job.attempts, D.FailureStatus(failure.result)),
                                  AttemptRow(failure.code, None));
      if logged.Err? {
        return Err(logged.Why());
      }
      queue := logged.value;
      var job' := job.(lock := None, version := job.version + 1);
      match failure.result
      case Retryable =>
        queue := queue.(jobs :=
                        queue.jobs[j := job'.(status := JobRetryableFailed, nextAttemptAt := failure.nextAttemptAt)]);
        r := Ok(());
      case Permanent =>
        queue := queue.(jobs := queue.jobs[j := job'.(status := JobPermanentFailed)]);
        r := MarkOrderFailed(job.order, failure.code);
      case Ambiguous =>
        queue := queue.(jobs := queue.jobs[j := job'.(status := JobAmbiguous)]);
        r := Ok(());
      case Success =>
        r := Err(InvalidDeliveryState);
    }

    method FinalizeDeliveryFailure(j: nat, worker: string, failure: D.Failure) returns (r: Result<()>)
      modifies this
      ensures Committed(Plain(D.FinalizeFailure(old(State()), j, worker, failure)), old(State()), State(), r)
    {
      var before := State();
      r := FinalizeFailureBody(j, worker, failure);
      if r.Err? {
        Rollback(before);
      }
    }

    method FinalizeClaimedBody(j: nat, worker: string, failure: D.Failure) returns (r: Result<()>)
      modifies this`queue, this`sales
      ensures Reached(Plain(D.FinalizeClaimedFailure(old(State()), j, worker, failure)), State(), r)
    {
      if j >= |queue.jobs| {
        return Err(NoRows);
      }
      var job := queue.jobs[j];
      if !IsClaimed(job, worker) {
        return Err(DeliveryLeaseLost);
      }
      var status := JobPermanentFailed;
      if failure.result == Retryable {
        status := JobRetryableFailed;
      }
      var updated := MarkClaimedFailure(queue, j, worker, status, failure.nextAttemptAt);
      if updated.Err? {
        return Err(updated.Why());
      }
      queue := updated.value;
      var logged := InsertAttempt(queue, AttemptKey(j, queue.jobs[j].attempts, D.FailureStatus(failure.result)),
                                  AttemptRow(failure.code, None));
      if logged.Err? {
        return Err(logged.Why());
      }
      queue := logged.value;
      r := Ok(());
      if failure.result == Permanent {
        r := MarkOrderFailed(job.order, failure.code);
      }
    }

    method FinalizeClaimedDeliveryFailure(j: nat, worker: string, failure: D.Failure) returns (r: Result<()>)
      modifies this
      ensures Committed(Plain(D.FinalizeClaimedFailure(old(State()), j, worker, failure)), old(State()), State(), r)
    {
      var before := State();
      r := FinalizeClaimedBody(j, worker, failure);
      if r.Err? {
        Rollback(before);
      }
    }

    method PreserveAmbiguousSuccess(j: nat, message: int, reason: string) returns (r: Result<()>)
      modifies this`queue
      ensures match D.PreserveAmbiguous(old(queue), j, message, reason)
              case Ok(next) => r == Ok(()) && queue == next
              case Err(e) => r == Err(e) && queue == old(queue)
    {
      var before := queue;
      if j >= |queue.jobs| {
        return Err(NoRows);
      }
      var job := queue.jobs[j];
      if job.status == JobCompleted {
        return Ok(());
      }
      if !IsSending(job) {
        return Err(InvalidDeliveryState);
      }
      queue := queue.(jobs :=
                      queue.jobs[j := job.(status := JobAmbiguous, lock := None, message := Some(message),
                                           version := job.version + 1)]);
      var logged := InsertAttempt(queue, AttemptKey(j, job.attempts, FailedAmbiguous),
                                  AttemptRow(reason, Some(message)));
      if logged.Err? {
        queue := before;
        return Err(logged.Why());
      }
      queue := logged.value;
      r := Ok(());
    }

    method RetryBody(ticket: Ticket, update: nat, j: nat, version: nat, now: int) returns (r: Result<()>)
      modifies this
      ensures Reached(Plain(A.RetryDelivery(old(State()), ticket, update, j, version, now)), State(), r)
    {
      var admitted := Admit(gate, ticket, A.DELIVERY_RETRY, now);
      if admitted.Fail? {
        return Err(admitted.error);
      }
      if j >= |queue.jobs| {
        return Err(DeliveryNotFound);
      }
      var job := queue.jobs[j];
      if job.version != version {
        return Err(StaleVersion);
      }
      if job.status !in {JobAmbiguous, JobManualReview, JobPermanentFailed, JobRetryableFailed} {
        return Err(UnsafeDeliveryResolution);
      }
      if job.order >= |sales.orders| {
        return Err(NoRows);
      }
      var order := sales.orders[job.order];
      if order.status == DeliveryFailed {
        var moved := MoveOrder(job.order, DeliveryFailed, Delivering, "manual_redelivery_verified");
        if moved.Err? {
          return Err(moved.Why());
        }
      } else if order.status != Delivering {
        return Err(InvalidDeliveryState);
      }
      var retried := ManualRetry(queue, j, version, now);
      if retried.Err? {
        return Err(retried.Why());
      }
      queue := retried.value;
      var logged := InsertAttempt(queue, AttemptKey(j, job.attempts + 1, ManualResolution),
                                  AttemptRow(NOT_DELIVERED, None));
      if logged.Err? {
        return Err(logged.Why());
      }
      queue := logged.value;
      r := LeaveSession(ticket, update, now);
    }

    method RetryDelivery(ticket: Ticket, update: nat, j: nat, version: nat, now: int) returns (r: Result<()>)
      modifies this
      ensures Committed(Plain(A.RetryDelivery(old(State()), ticket, update, j, version, now)), old(State()), State(), r)
    {
      var before := State();
      r := RetryBody(ticket, update, j, version, now);
      if r.Err? {
        Rollback(before);
      }
    }

    method CompleteBody(ticket: Ticket, update: nat, j: nat, version: nat, message: int, now: int)
      returns (r: Result<()>)
      modifies this
      ensures Reached(Plain(A.CompleteDelivery(old(State()), ticket, update, j, version, message, now)), State(), r)
    {
      var admitted := Admit(gate, ticket, A.DELIVERY_COMPLETE, now);
      if admitted.Fail? {
        return Err(admitted.error);
      }
      var delivered := DeliverByHand(j, version, message);
      if delivered.Err? {
        return Err(delivered.Why());
      }
      r := LeaveSession(ticket, update, now);
    }

    /** The rows of a manual completion. */
    method DeliverByHand(j: nat, version: nat, message: int) returns (r: Result<()>)
      modifies this`queue, this`sales, this`stock
      ensures Reached(Plain(A.DeliverByHand(old(State()), j, version, message)), State(), r)
    {
      if j >= |queue.jobs| {
        return Err(DeliveryNotFound);
      }
      var job := queue.jobs[j];
      if job.version != version {
        return Err(StaleVersion);
      }
      if job.status !in {JobAmbiguous, JobManualReview} {
        return Err(UnsafeDeliveryResolution);
      }
      if job.order >= |sales.orders| {
        return Err(NoRows);
      }
      var order := sales.orders[job.order];
      if order.status != Delivering {
        return Err(InvalidDeliveryState);
      }
      var (sold, items) := SellExact(stock, job.order, order.quantity);
      stock := sold;
      if |items| != order.quantity {
        return Err(DeliveryInventoryMismatch);
      }
      var delivered := MoveOrder(job.order, Delivering, Delivered, "manual_delivery_verified");
      if delivered.Err? {
        return Err(delivered.Why());
      }
      r := CompleteByHand(j, version, message);
    }

    /** The job and its log row. */
    method CompleteByHand(j: nat, version: nat, message: int) returns (r: Result<()>)
      requires j < |queue.jobs|
      modifies this`queue
      ensures match A.CompleteByHand(old(queue), j, version, message)
              case Ok(next) => r == Ok(()) && queue == next
              case Err(e) => r == Err(e)
    {
      var attempts := queue.jobs[j].attempts;
      var completed := ManualComplete(queue, j, version, message);
      if completed.Err? {
        return Err(completed.Why());
      }
      queue := completed.value;
      var logged := InsertAttempt(queue, AttemptKey(j, attempts + 1, ManualResolution),
                                  AttemptRow(WAS_DELIVERED, Some(message)));
      if logged.Err? {
        return Err(logged.Why());
      }
      queue := logged.value;
      r := Ok(());
    }

    method CompleteDelivery(ticket: Ticket, update: nat, j: nat, version: nat, message: int, now: int)
      returns (r: Result<()>)
      modifies this
      ensures Committed(Plain(A.CompleteDelivery(old(State()), ticket, update, j, version, message, now)),
                        old(State()), State(), r)
    {
      var before := State();
      r := CompleteBody(ticket, update, j, version, message, now);
      if r.Err? {
        Rollback(before);
      }
    }

    // ---------- payments ----------

    /** recordPaymentReview and recordTopupReview. */
    method RecordReview(c: P.PaymentCommand, payment: Option<nat>, target: Option<Target>, reason: string)
      returns (r: Result<P.Acceptance>)
      modifies this`till
      ensures Reached(P.RecordReview(old(State()), c, payment, target, reason), State(), r)
    {
      till := InsertReview(till, Review(c.event, payment, target, reason, Open));
      var finished := FinishEvent(till, c.event, EventInReview);
      if finished.Err? {
        return Err(finished.Why());
      }
      till := finished.value;
      r := Ok(P.Acceptance(P.InReview(reason), payment, 0));
    }

    /** handleExistingPayment. */
    method HandleExisting(c: P.PaymentCommand, p: nat) returns (r: Result<P.Acceptance>)
      requires p < |till.payments|
      modifies this`till
      ensures Reached(P.HandleExisting(old(State()), c, p), State(), r)
    {
      var existing := till.payments[p];
      var target: Option<Target> := None;
      if existing.order.Some? {
        target := Some(OrderTarget(existing.order.value));
      }
      if !P.SameEvidence(existing, c) {
        r := RecordReview(c, Some(p), target, "transaction_conflict");
        return;
      }
      if FindAllocation(till, p).None? {
        r := RecordReview(c, Some(p), target, "duplicate_unallocated");
        return;
      }
      var finished := FinishEvent(till, c.event, EventCompleted);
      if finished.Err? {
        return Err(finished.Why());
      }
      till := finished.value;
      r := Ok(P.Acceptance(P.Duplicate, Some(p), 0));
    }

    /** The end of every order payment. */
    method Fulfil(o: nat, payment: nat, claimed: set<nat>, terms: P.Terms) returns (r: Result<()>)
      requires o < |sales.orders|
      modifies this`stock, this`till, this`queue, this`sales
      ensures Reached(Plain(P.Fulfil(old(State()), o, payment, claimed, terms)), State(), r)
    {
      var total := sales.orders[o].total;
      stock := Reserve(stock, o, terms.until, claimed);
      var mapped := MapItems(o, claimed);
      if mapped.Err? {
        return Err(mapped.Why());
      }
      var booked := InsertAllocation(till, Allocation(payment, OrderTarget(o), total));
      if booked.Err? {
        return Err(booked.Why());
      }
      till := booked.value;
      var handed := Handoff(o, terms.now, terms.maxAttempts);
      if handed.Err? {
        return Err(handed.Why());
      }
      r := Ok(());
    }

    /** The order branch of acceptPaymentWithinTransaction. */
    method AcceptForOrder(c: P.PaymentCommand, o: nat, terms: P.Terms) returns (r: Result<P.Acceptance>)
      requires o < |sales.orders|
      modifies this`stock, this`till, this`queue, this`sales
      ensures Reached(P.AcceptForOrder(old(State()), c, o, terms), State(), r)
    {
      var order := sales.orders[o];
      var p := |till.payments|;
      var reason := P.OrderProblem(order, c, terms.now);
      var inserted := InsertPayment(till, P.PaymentFor(c, Some(o), order.user, reason == ""));
      if inserted.Err? {
        return Err(inserted.Why());
      }
      till := inserted.value;
      if reason != "" {
        r := RecordReview(c, Some(p), Some(OrderTarget(o)), reason);
        return;
      }
      var reserving := PassThroughPaid(o, "payment_accepted", "inventory_claim_started");
      if reserving.Err? {
        return Err(reserving.Why());
      }
      var claimed := ExactSet(stock, order.product, order.quantity, terms.offered);
      if |claimed| != order.quantity {
        var short := MoveOrder(o, Reserving, OutOfStock, "post_payment_inventory_insufficient");
        if short.Err? {
          return Err(short.Why());
        }
        r := RecordReview(c, Some(p), Some(OrderTarget(o)), "out_of_stock");
        return;
      }
      var handed := Fulfil(o, p, claimed, terms);
      if handed.Err? {
        return Err(handed.Why());
      }
      var finished := FinishEvent(till, c.event, EventCompleted);
      if finished.Err? {
        return Err(finished.Why());
      }
      till := finished.value;
      r := Ok(P.Acceptance(P.Accepted, Some(p), |claimed|));
    }

    /** acceptWalletTopupPayment. */
    method AcceptForTopup(c: P.PaymentCommand, t: nat, now: int) returns (r: Result<P.Acceptance>)
      requires t < |wallets.topups|
      modifies this`till, this`wallets
      ensures Reached(P.AcceptForTopup(old(State()), c, t, now), State(), r)
    {
      var topup := wallets.topups[t];
      var p := |till.payments|;
      var reason := P.TopupProblem(topup, c, now);
      var inserted := InsertPayment(till, P.PaymentFor(c, None, topup.user, reason == ""));
      if inserted.Err? {
        return Err(inserted.Why());
      }
      till := inserted.value;
      if reason != "" {
        if topup.status in {TopupPending, TopupExpired} {
          var marked := MarkInReview(wallets, t);
          if marked.Err? {
            return Err(marked.Why());
          }
          wallets := marked.value;
        }
        r := RecordReview(c, Some(p), Some(TopupTarget(t)), reason);
        return;
      }
      var updated := UpdateBalance(wallets, topup.account, c.amount);
      if updated.Err? {
        return Err(updated.Why());
      }
      wallets := updated.value;
      var entry := Entry(topup.account, FromTopup(t), c.amount, wallets.accounts[topup.account].balance,
                         "payment:" + Text.Decimal(p));
      var posted := InsertEntry(wallets, entry);
      if posted.Err? {
        return Err(posted.Why());
      }
      wallets := posted.value;
      var credited := MarkCredited(wallets, t, topup.version);
      if credited.Err? {
        return Err(credited.Why());
      }
      wallets := credited.value;
      var booked := InsertAllocation(till, Allocation(p, TopupTarget(t), c.amount));
      if booked.Err? {
        return Err(booked.Why());
      }
      till := booked.value;
      var finished := FinishEvent(till, c.event, EventCompleted);
      if finished.Err? {
        return Err(finished.Why());
      }
      till := finished.value;
      r := Ok(P.Acceptance(P.Accepted, Some(p), 0));
    }

    /** acceptPaymentWithinTransaction. */
    method AcceptBody(c: P.PaymentCommand, terms: P.Terms) returns (r: Result<P.Acceptance>)
      modifies this`stock, this`till, this`queue, this`sales, this`wallets
      ensures Reached(P.AcceptPayment(old(State()), c, terms), State(), r)
    {
      if c.event.Some? {
        var e := c.event.value;
        if e >= |till.events| {
          return Err(NoRows);
        }
        if till.events[e].status == EventCompleted || till.events[e].status == EventInReview {
          return Ok(P.Acceptance(P.Duplicate, None, 0));
        }
        if till.events[e].status != EventProcessing {
          return Err(Conflict);
        }
      }
      var known := FindPayment(till, c.provider, c.environment, c.transaction);
      if known.Some? {
        r := HandleExisting(c, known.value);
        return;
      }
      var order := FindByReference(sales, c.reference);
      var topup := FindTopupByReference(wallets, c.reference);
      if order.Some? && topup.Some? {
        r := RecordReview(c, None, None, "provider_ambiguous_reference");
      } else if order.Some? {
        r := AcceptForOrder(c, order.value, terms);
      } else if topup.Some? {
        r := AcceptForTopup(c, topup.value, terms.now);
      } else {
        r := RecordReview(c, None, None, "unknown_reference");
      }
    }

    method AcceptPayment(c: P.PaymentCommand, terms: P.Terms) returns (r: Result<P.Acceptance>)
      modifies this
      ensures Committed(P.AcceptPayment(old(State()), c, terms), old(State()), State(), r)
    {
      var before := State();
      r := AcceptBody(c, terms);
      if r.Err? {
        Rollback(before);
      }
    }

    method ManualAcceptPayment(ticket: Ticket, update: nat, c: P.PaymentCommand, terms: P.Terms)
      returns (r: Result<P.Acceptance>)
      modifies this
      ensures Committed(M.ManualAccept(old(State()), ticket, update, c, terms), old(State()), State(), r)
    {
      var before := State();
      var admitted := Admit(gate, ticket, M.PAYMENT_MANUAL, terms.now);
      if admitted.Fail? {
        return Err(admitted.error);
      }
      r := AcceptBody(M.ByHand(c), terms);
      if r.Ok? {
        var left := LeaveSession(ticket, update, terms.now);
        if left.Err? {
          r := Err(left.Why());
        }
      }
      if r.Err? {
        Rollback(before);
      }
    }

    method ResolvePaymentReview(ticket: Ticket, update: nat, review: nat, status: ReviewStatus, now: int)
      returns (r: Result<()>)
      modifies this
      ensures Committed(Plain(M.ResolveReviewCase(old(State()), ticket, update, review, status, now)), old(State()),
                        State(), r)
    {
      var before := State();
      var admitted := Admit(gate, ticket, M.PAYMENT_REVIEW, now);
      if admitted.Fail? {
        return Err(admitted.error);
      }
      var resolved := ResolveReview(till, review, status);
      if resolved.Err? {
        return Err(NotFound);
      }
      till := resolved.value;
      r := LeaveSession(ticket, update, now);
      if r.Err? {
        Rollback(before);
      }
    }

    // ---------- payment events ----------

    /** ClaimPaymentEvents: the statement visits every row once. */
    method ClaimPaymentEvents(picked: seq<nat>, now: int, staleBefore: int)
      modifies this`till
      ensures till == ClaimEvents(old(till), picked, now, staleBefore)
    {
      ghost var claimed := ClaimEvents(till, picked, now, staleBefore).events;
      var events := till.events;
      var e := 0;
      while e < |events|
        invariant 0 <= e <= |events| == |claimed|
        invariant forall i :: 0 <= i < e ==> events[i] == claimed[i]
        invariant forall i :: e <= i < |events| ==> events[i] == till.events[i]
      {
        if e in picked && EventClaimable(events[e], now, staleBefore) {
          events := events[e := ClaimedEvent(events[e], now)];
        }
        e := e + 1;
      }
      till := till.(events := events);
      assert till.events == claimed;
    }

    method SchedulePaymentEventRetry(e: nat, nextAttemptAt: int) returns (r: Result<()>)
      modifies this`till
      ensures match RetryEvent(old(till), e, nextAttemptAt)
              case Ok(next) => r == Ok(()) && till == next
              case Err(why) => r == Err(why) && till == old(till)
    {
      if e >= |till.events| || till.events[e].status != EventProcessing {
        return Err(NoRows);
      }
      var event := till.events[e];
      var status := if event.attempts >= event.maxAttempts then EventFailed else EventReceived;
      till := till.(events := till.events[e := event.(status := status, nextAttemptAt := nextAttemptAt)]);
      r := Ok(());
    }

    /** CompletePaymentEvent and CompleteIgnoredPaymentEvent. */
    method SettleEvent(e: nat, status: EventStatus) returns (r: Result<()>)
      modifies this`till
      ensures match FinishEvent(old(till), Some(e), status)
              case Ok(next) => r == Ok(()) && till == next
              case Err(why) => r == Err(why) && till == old(till)
    {
      if e >= |till.events| || till.events[e].status != EventProcessing {
        return Err(NoRows);
      }
      till := WithStatus(till, e, status);
      r := Ok(());
    }

    method ReviewPaymentEvent(e: nat, reason: string) returns (r: Result<()>)
      modifies this`till
      ensures match M.ReviewEvent(old(till), e, reason)
              case Ok(next) => r == Ok(()) && till == next
              case Err(why) => r == Err(why) && till == old(till)
    {
      var before := till;
      if e >= |till.events| {
        return Err(NoRows);
      }
      if till.events[e].status == EventInReview || till.events[e].status == EventCompleted {
        return Ok(());
      }
      till := InsertReview(till, Review(Some(e), None, None, reason, Open));
      var marked := MarkEventReviewed(till, e);
      if marked.Err? {
        till := before;
        return Err(marked.Why());
      }
      till := marked.value;
      r := Ok(());
    }

    // ---------- wallets ----------

    /** A guarded balance update and its ledger entry. */
    method PostOrRefuse(account: nat, source: Source, amount: int, key: string) returns (r: Result<()>)
      modifies this`wallets
      ensures if UpdateBalance(old(wallets), account, amount).Err? then r == Err(InsufficientWalletBalance)
              else match Post(old(wallets), account, source, amount, key)
                case Ok(next) => r == Ok(()) && wallets == next
                case Err(e) => r == Err(e)
    {
      var updated := UpdateBalance(wallets, account, amount);
      if updated.Err? {
        return Err(InsufficientWalletBalance);
      }
      wallets := updated.value;
      var posted := InsertEntry(wallets, Entry(account, source, amount, wallets.accounts[account].balance, key));
      if posted.Err? {
        return Err(posted.Why());
      }
      wallets := posted.value;
      r := Ok(());
    }

    /** PayOrderWithWallet once the account is known. */
    method PayFrom(account: nat, user: nat, o: nat, key: string, update: nat, terms: P.Terms)
      returns (r: Result<W.WalletPayment>)
      requires o < |sales.orders| && account < |wallets.accounts|
      modifies this
      ensures Reached(W.PayFrom(old(State()), account, user, o, key, update, terms), State(), r)
    {
      var order := sales.orders[o];
      var p := |till.payments|;
      if wallets.accounts[account].balance < order.total {
        return Err(InsufficientWalletBalance);
      }
      var claimed := ExactSet(stock, order.product, order.quantity, terms.offered);
      if |claimed| != order.quantity {
        return Err(InsufficientInventory);
      }
      var inserted := InsertPayment(till, W.WalletPaymentRow(order, user, o));
      if inserted.Err? {
        return Err(inserted.Why());
      }
      till := inserted.value;
      var posted := PostOrRefuse(account, ForOrder(o), -order.total, key);
      if posted.Err? {
        return Err(posted.Why());
      }
      var settled := Settle(o, p, claimed, update, terms);
      if settled.Err? {
        return Err(settled.Why());
      }
      r := Ok(W.WalletPayment(false, wallets.accounts[account].balance, |claimed|));
    }

    /** The order is paid for and its items are handed over. */
    method Settle(o: nat, payment: nat, claimed: set<nat>, update: nat, terms: P.Terms) returns (r: Result<()>)
      requires o < |sales.orders|
      modifies this`stock, this`till, this`queue, this`sales, this`gate
      ensures Reached(Plain(W.Settle(old(State()), o, payment, claimed, update, terms)), State(), r)
    {
      var reserving := PassThroughPaid(o, "wallet_payment_accepted", "wallet_inventory_claimed");
      if reserving.Err? {
        return Err(reserving.Why());
      }
      var handed := Fulfil(o, payment, claimed, terms);
      if handed.Err? {
        return Err(handed.Why());
      }
      r := FinishUpdate(update);
    }

    method PayBody(user: nat, o: nat, key: string, update: nat, terms: P.Terms) returns (r: Result<W.WalletPayment>)
      modifies this
      ensures Reached(W.PayOrder(old(State()), user, o, key, update, terms), State(), r)
    {
      var active := W.ActiveUser(sales, user);
      if active.Fail? {
        return Err(active.error);
      }
      if o >= |sales.orders| || sales.orders[o].user != user {
        return Err(OrderNotFound);
      }
      var order := sales.orders[o];
      var known := FindPayment(till, W.WALLET, order.environment, W.WalletTransaction(o));
      if known.Some? {
        var allocation := FindAllocation(till, known.value);
        if allocation.None? || till.allocations[allocation.value].target != OrderTarget(o) {
          return Err(PaymentTransactionConflict);
        }
        var (same, wallet) := EnsureAccount(wallets, user);
        wallets := same;
        var finished := FinishUpdate(update);
        if finished.Err? {
          return Err(finished.Why());
        }
        return Ok(W.WalletPayment(true, wallets.accounts[wallet].balance, 0));
      }
      if order.status != PendingPayment {
        return Err(OrderAlreadyPaid);
      }
      if order.expiresAt <= terms.now {
        return Err(OrderExpired);
      }
      var (ensured, account) := EnsureAccount(wallets, user);
      wallets := ensured;
      r := PayFrom(account, user, o, key, update, terms);
    }

    method PayOrderWithWallet(user: nat, o: nat, key: string, update: nat, terms: P.Terms)
      returns (r: Result<W.WalletPayment>)
      modifies this
      ensures Committed(W.PayOrder(old(State()), user, o, key, update, terms), old(State()), State(), r)
    {
      var before := State();
      r := PayBody(user, o, key, update, terms);
      if r.Err? {
        Rollback(before);
      }
    }

    method EnsureWallet(user: nat) returns (account: nat)
      modifies this`wallets
      ensures (wallets, account) == EnsureAccount(old(wallets), user)
    {
      var found := FindAccount(wallets, user);
      if found.Some? {
        return found.value;
      }
      account := |wallets.accounts|;
      wallets := wallets.(accounts := wallets.accounts + [Account(user, 0, ActiveAccount, 1)]);
    }

    /** CreateWalletTopup: the answer tells a duplicate from a new intent. */
    method TopupBody(request: W.TopupRequest, update: nat) returns (r: Result<(nat, bool)>)
      modifies this`wallets, this`gate
      ensures match W.CreateTopup(old(State()), request, update)
              case Ok(done) => State() == done.0 && r == Ok((done.1, done.2))
              case Err(e) => r == Err(e)
    {
      var active := W.ActiveUser(sales, request.user);
      if active.Fail? {
        return Err(active.error);
      }
      var known := FindTopupByKey(wallets, request.user, request.key);
      if known.Some? {
        var finished := FinishUpdate(update);
        return if finished.Ok? then Ok((known.value, true)) else Err(finished.Why());
      }
      var account := EnsureWallet(request.user);
      if !W.ActiveBank(sales, request.bank, request.environment) {
        return Err(BankAccountInactive);
      }
      var t := |wallets.topups|;
      var topup := Topup(request.user, account, request.amount, request.reference, request.key, TopupPending,
                         request.expiresAt, request.environment, request.bank, 1);
      var inserted := InsertTopup(wallets, topup);
      if inserted.Err? {
        return Err(inserted.Why());
      }
      if inserted.value.None? {
        return Err(NoRows);
      }
      wallets := inserted.value.value;
      var finished := FinishUpdate(update);
      r := if finished.Ok? then Ok((t, false)) else Err(finished.Why());
    }

    method CreateWalletTopup(request: W.TopupRequest, update: nat) returns (r: Result<(nat, bool)>)
      modifies this
      ensures match W.CreateTopup(old(State()), request, update)
              case Ok(done) => State() == done.0 && r == Ok((done.1, done.2))
              case Err(e) => State() == old(State()) && r == Err(e)
    {
      var before := State();
      r := TopupBody(request, update);
      if r.Err? {
        Rollback(before);
      }
    }

    method AdjustBody(ticket: Ticket, update: nat, user: nat, amount: int, key: string, now: int)
      returns (r: Result<()>)
      modifies this
      ensures Reached(Plain(W.AdjustWallet(old(State()), ticket, update, user, amount, key, now)), State(), r)
    {
      var admitted := Admit(gate, ticket, W.WALLET_ADJUSTMENT, now);
      if admitted.Fail? {
        return Err(admitted.error);
      }
      if user >= |sales.users| {
        return Err(NotFound);
      }
      var (ensured, account) := EnsureAccount(wallets, user);
      wallets := ensured;
      var posted := PostOrRefuse(account, ByAdmin(ticket.admin), amount, key);
      if posted.Err? {
        return Err(posted.Why());
      }
      r := LeaveSession(ticket, update, now);
    }

    method AdjustWallet(ticket: Ticket, update: nat, user: nat, amount: int, key: string, now: int)
      returns (r: Result<()>)
      modifies this
      ensures Committed(Plain(W.AdjustWallet(old(State()), ticket, update, user, amount, key, now)), old(State()),
                        State(), r)
    {
      var before := State();
      r := AdjustBody(ticket, update, user, amount, key, now);
      if r.Err? {
        Rollback(before);
      }
    }

    // ---------- orders ----------

    /** The loop over generated references, at most eight of them. */
    method InsertOrder(draft: Order, references: seq<string>) returns (r: Result<(nat, bool)>)
      modifies this`sales
      ensures match O.InsertWithReference(old(sales), draft, references)
              case Ok((next, o, duplicate)) => sales == next && r == Ok((o, duplicate))
              case Err(e) => sales == old(sales) && r == Err(e)
    {
      var attempt := 0;
      while attempt < |references|
        invariant 0 <= attempt <= |references|
        invariant sales == old(sales)
        invariant O.InsertWithReference(sales, draft, references[attempt..]) ==
                  O.InsertWithReference(sales, draft, references)
      {
        assert references[attempt..][0] == references[attempt]
               && references[attempt..][1..] == references[attempt + 1..];
        var o := |sales.orders|;
        var inserted := InsertPendingOrder(sales, draft.(reference := references[attempt]));
        if inserted.Some? {
          sales := inserted.value;
          sales := InsertHistory(sales, o, None, PendingPayment, "order_created");
          return Ok((o, false));
        }
        var existing := FindByKey(sales, draft.user, draft.key);
        if existing.Some? {
          return Ok((existing.value, true));
        }
        attempt := attempt + 1;
      }
      r := Err(PaymentReferenceCollision);
    }

    method CreateOrder(request: O.OrderRequest, update: nat, terms: O.OrderTerms, drawn: seq<string>)
      returns (r: Result<(nat, bool)>)
      modifies this
      ensures match O.CreateOrder(old(State()), request, update, terms, drawn)
              case Ok((db, o, duplicate)) => State() == db && r == Ok((o, duplicate))
              case Err(e) => State() == old(State()) && r == Err(e)
    {
      var before := State();
      if request.key == "" {
        return Err(InvalidInput);
      }
      if request.quantity <= 0 {
        return Err(InvalidQuantity);
      }
      if terms.maxQuantity <= 0 || request.quantity > terms.maxQuantity {
        return Err(QuantityLimitExceeded);
      }
      if terms.expiry <= 0 {
        return Err(InvalidInput);
      }
      var active := W.ActiveUser(sales, request.user);
      if active.Fail? {
        return Err(active.error);
      }
      var existing := FindByKey(sales, request.user, request.key);
      if existing.Some? {
        r := Ok((existing.value, true));
      } else {
        var draft := O.Draft(State(), request, terms);
        if draft.Err? {
          return Err(draft.Why());
        }
        r := InsertOrder(draft.value, if |drawn| > O.REFERENCE_ATTEMPTS then drawn[..O.REFERENCE_ATTEMPTS] else drawn);
        if r.Err? {
          return;
        }
      }
      var finished := FinishUpdate(update);
      if finished.Err? {
        Rollback(before);
        r := Err(finished.Why());
      }
    }

    /** The history rows of expired orders. */
    method LogExpiries(ids: seq<nat>)
      requires forall i, j :: 0 <= i < j < |ids| ==> ids[i] != ids[j]
      modifies this`sales
      ensures sales == old(sales).(history := sales.history)
      ensures O.ExpiryLogged(old(sales), sales, O.Members(ids))
    {
      var k := 0;
      while k < |ids|
        invariant 0 <= k <= |ids|
        invariant sales == old(sales).(history := sales.history)
        invariant O.ExpiryLogged(old(sales), sales, O.Members(ids[..k]))
      {
        O.OneMoreMember(ids, k);
        O.OneMoreLogged(old(sales), sales, O.Members(ids[..k]), ids[k]);
        sales := InsertHistory(sales, ids[k], Some(PendingPayment), Expired, "payment_window_elapsed");
        k := k + 1;
      }
      assert ids[..k] == ids;
    }

    /** ExpireOverdueOrders: one update, then one history row for each order it
        returned, and the ids in ascending order. */
    method ExpireOverdueOrders(picked: seq<nat>, now: int) returns (expired: seq<nat>)
      modifies this`sales
      ensures sales == O.ExpireOrders(old(sales), picked, now)
      ensures forall o :: o in expired <==> o in picked && O.Overdue(old(sales), o, now)
      ensures forall i, j :: 0 <= i < j < |expired| ==> expired[i] < expired[j]
    {
      ghost var before := sales;
      var ids := O.OverdueRows(sales, picked, now);
      sales := O.ClaimOverdue(sales, picked, now);
      LogExpiries(ids);
      O.LoggedByClaim(before, sales, picked, ids, now);
      O.ExpiredAtOnce(before, sales, picked, now);
      expired := O.Ascending(ids, |sales.orders|);
    }

    method CancelOrder(user: nat, o: nat, version: nat, update: nat, now: int) returns (r: Result<bool>)
      modifies this
      ensures Committed(O.CancelOrder(old(State()), user, o, version, update, now), old(State()), State(), r)
    {
      var before := State();
      if o >= |sales.orders| || sales.orders[o].user != user {
        return Err(OrderNotFound);
      }
      var order := sales.orders[o];
      var already := order.status == Cancelled;
      if !already {
        if order.status == Expired || order.expiresAt <= now {
          return Err(OrderExpired);
        }
        if order.version != version {
          return Err(StaleVersion);
        }
        if !CustomerMayMove(order.status, Cancelled) {
          return Err(InvalidOrderState);
        }
        var moved := MoveOrder(o, PendingPayment, Cancelled, "customer_cancelled");
        if moved.Err? {
          return Err(moved.Why());
        }
      }
      var finished := FinishUpdate(update);
      if finished.Err? {
        Rollback(before);
        return Err(finished.Why());
      }
      r := Ok(already);
    }

    // ---------- inventory ----------

    /** releaseInventoryForOrder: items first, then mappings, which must agree. */
    method ReleaseFor(o: nat, reason: ReleaseReason) returns (r: Result<nat>)
      modifies this`stock
      ensures match I.ReleaseFor(old(stock), o, reason)
              case Ok(done) => stock == done.0 && r == Ok(done.1)
              case Err(e) => r == Err(e)
    {
      var ids := ReservedBy(stock, o);
      if ids == {} {
        return Ok(0);
      }
      stock := Release(stock, o);
      var mappings := ActiveMappings(stock, o, ids);
      if |mappings| != |ids| {
        return Err(ReservationNotOwned);
      }
      stock := ReleaseMappings(stock, o, ids, reason);
      r := Ok(|ids|);
    }

    method ReleaseInventory(o: nat, reason: ReleaseReason) returns (r: Result<nat>)
      modifies this
      ensures Committed(I.ReleaseInventory(old(State()), o, reason), old(State()), State(), r)
    {
      var before := State();
      if o >= |sales.orders| {
        return Err(NotFound);
      }
      var expected := ReleaseReasonForOrder(sales.orders[o].status);
      if expected.None? {
        return Err(UnsafeReservationRelease);
      }
      if reason != expected.value {
        return Err(InvalidInput);
      }
      r := ReleaseFor(o, reason);
      if r.Err? {
        Rollback(before);
      }
    }

    method RecoverExpiredReservation(o: nat, now: int) returns (r: Result<I.Recovery>)
      modifies this
      ensures Committed(I.RecoverExpired(old(State()), o, now), old(State()), State(), r)
    {
      var before := State();
      if o >= |sales.orders| {
        return Err(NotFound);
      }
      if I.ExpiredReservations(stock, o, now) == {} {
        return Ok(I.Recovery(0, false));
      }
      var reason := ReleaseReasonForOrder(sales.orders[o].status);
      if reason.None? {
        return Ok(I.Recovery(0, true));
      }
      var released := ReleaseFor(o, reason.value);
      if released.Err? {
        Rollback(before);
        return Err(released.Why());
      }
      r := Ok(I.Recovery(released.value, false));
    }

    /** One inserted item for each payload whose fingerprint is new. */
    method InsertItems(product: nat, unseen: nat)
      modifies this`stock
      ensures stock == ImportItems(old(stock), product, unseen)
    {
      var k := 0;
      while k < unseen
        invariant 0 <= k <= unseen
        invariant stock == ImportItems(old(stock), product, k)
      {
        stock := stock.(items := stock.items + [Item(product, Available, true, 1)]);
        k := k + 1;
      }
    }

    method ImportInventory(ticket: Ticket, update: nat, product: nat, unseen: nat, now: int) returns (r: Result<()>)
      modifies this
      ensures Committed(Plain(I.Import(old(State()), ticket, update, product, unseen, now)), old(State()), State(), r)
    {
      var before := State();
      var admitted := AdmitToCatalog(gate, ticket, I.INVENTORY_IMPORT, now);
      if admitted.Fail? {
        return Err(admitted.error);
      }
      if product >= |sales.products| || !sales.products[product].fromInventory {
        return Err(NotFound);
      }
      InsertItems(product, unseen);
      r := LeaveSession(ticket, update, now);
      if r.Err? {
        Rollback(before);
      }
    }

    method SetInventoryItemEnabled(ticket: Ticket, update: nat, item: nat, version: nat, enable: bool, now: int)
      returns (r: Result<()>)
      modifies this
      ensures Committed(Plain(I.SetEnabled(old(State()), ticket, update, item, version, enable, now)), old(State()),
                        State(), r)
    {
      var before := State();
      var admitted := AdmitToCatalog(gate, ticket, I.INVENTORY_TOGGLE, now);
      if admitted.Fail? {
        return Err(admitted.error);
      }
      if item >= |stock.items| {
        return Err(InventoryNotFound);
      }
      var row := stock.items[item];
      if row.version != version {
        return Err(StaleVersion);
      }
      if row.state != (if enable then Disabled else Available) {
        return Err(InvalidInventoryState);
      }
      var switched := row.(state := if enable then Available else Disabled, version := version + 1);
      stock := stock.(items := stock.items[item := switched]);
      r := LeaveSession(ticket, update, now);
      if r.Err? {
        Rollback(before);
      }
    }
  }

  /** The item already has a mapping that refuses a new one. */
  predicate Taken(s: Stock, o: nat, i: nat) {
    (o, i) in s.mappings || HasActiveMapping(s, i)
  }

  /** The mappings of the items already handled. */
  function Mapped(start: Stock, o: nat, done: set<nat>): Stock {
    start.(mappings := start.mappings + RowsFor(o, done, Active))
  }

  lemma StillTaken(start: Stock, o: nat, done: set<nat>, i: nat)
    requires i !in done
    ensures Taken(Mapped(start, o, done), o, i) <==> Taken(start, o, i)
  {
    var now := Mapped(start, o, done);
    forall m: (nat, nat) | m.1 == i
      ensures m in now.mappings <==> m in start.mappings
      ensures m in start.mappings ==> now.mappings[m] == start.mappings[m]
    {
    }
    if HasActiveMapping(start, i) {
      var m :| m in start.mappings && m.1 == i && start.mappings[m] == Active;
      assert m in now.mappings && now.mappings[m] == Active;
    }
  }

  lemma OneMoreMapped(start: Stock, o: nat, done: set<nat>, i: nat)
    ensures Mapped(start, o, done).mappings[(o, i) := Active] == Mapped(start, o, done + {i}).mappings
  {
  }

  /** The mappings inserted so far for other items do not refuse this one. */
  lemma MappingsSoFar(start: Stock, o: nat, claimed: set<nat>, left: set<nat>, i: nat)
    requires left <= claimed && i in left
    ensures Taken(Mapped(start, o, claimed - left), o, i) <==> Taken(start, o, i)
    ensures Mapped(start, o, claimed - left).mappings[(o, i) := Active] ==
            Mapped(start, o, claimed - (left - {i})).mappings
  {
    StillTaken(start, o, claimed - left, i);
    OneMoreMapped(start, o, claimed - left, i);
    assert claimed - (left - {i}) == claimed - left + {i};
  }
}
