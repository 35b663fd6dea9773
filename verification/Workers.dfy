/** Any number of delivery workers beside every other transaction of the shop:
    crashes, lost replies, stale recovery, zombie workers that finalise late, an
    unreliable network, and administrators, in any interleaving. */
module Workers {
  import opened Results
  import opened Domain
  import opened Agreement
  import opened Database
  import opened Delivery
  import opened DeliveryAdmin
  import opened DeliveryInvariant
  import opened GateTable
  import opened PaymentAcceptance
  import opened PaymentAdmin
  import opened Protocol
  import opened QueueTable
  import opened RetryDelay
  import opened SalesTable
  import opened SendLog
  import opened Shop
  import opened ShopInvariant
  import opened StockTable
  import opened TillTable
  import opened WalletStore
  import opened WalletTable

  /** Worker ids are never reused: a worker that is gone keeps its entry. The clock
      is the one the workers and the database share. */
  datatype World = World(db: Db, net: Net, pcs: Protocol.Workers, clock: int, earliest: map<nat, int>)

  /** seen tells whether the worker learns that its transaction committed. now is the
      time the worker read for it; the clock may have moved on since. */
  datatype Event =
    | Tick(now: int)
    | Other(action: Action)
    | Spawn(w: string)
    | Crash(w: string)
    | TakeBatch(w: string, picked: seq<nat>, now: int, seen: bool)
    | Load(w: string, contentOk: bool, cancelled: bool)
    | FailEarly(w: string, now: int, draw: real, seen: bool)
    | BeginSending(w: string, seen: bool)
    | Call(w: string)
    | Deliver(send: Send)
    | Reply(w: string, answer: Answer)
    | Finish(w: string, now: int, draw: real, seen: bool)
    | PreserveSuccess(w: string)
    | Lose(w: string)

  /** Transactions of the worker program happen only as worker events; stale
      recovery uses a time read before it commits, and only looks for claims older
      than that. */
  predicate Outside(a: Action, clock: int) {
    a.Shipping? ==>
      match a.delivery
      case RecoverBatch(_, now, staleBefore) => staleBefore <= now <= clock
      case BackfillBatch(_, _, _) => true
      case RetryBy(_, _, _, _, _) => true
      case CompleteBy(_, _, _, _, _, _) => true
      case _ => false
  }

  /** The job a committed action retries by hand. */
  function Retried(db: Db, a: Action): Option<nat> {
    if a.Shipping? && a.delivery.RetryBy? && Exec(db, a).Ok? then Some(a.delivery.j) else None
  }

  function AfterJob(todo: seq<nat>): Pc {
    if |todo| <= 1 then Idle else Working(todo[1..])
  }

  /** failBeforeSend: retryable only if the worker was cancelled. */
  function EarlyVerdict(retryable: bool, attempts: nat, p: Policy, now: int, draw: real): Failure {
    if retryable then Failure(Retryable, "cancelled_before_send", now + Delay(p, attempts + 1, 0, draw))
    else Failure(Permanent, "delivery_validation_failed", 0)
  }

  /** An answer that claims success without trusted evidence is an ambiguous error. */
  function Trusted(answer: Answer, recipient: int): Answer {
    if answer.Confirmed? && (answer.chat != recipient || answer.message <= 0) then
      Failed(Some(SendError(Ambiguous, "invalid_success_evidence", 0)))
    else answer
  }

  function Put(x: World, w: string, pc: Pc): World {
    x.(pcs := x.pcs[w := pc])
  }

  /** LoadClaimedDelivery and the message building after it. */
  function LoadStep(x: World, w: string, todo: seq<nat>, contentOk: bool, cancelled: bool): World {
    if todo == [] then Put(x, w, Idle)
    else if cancelled then Put(x, w, Rejected(todo, true))
    else if LoadClaimed(x.db, todo[0], w) == Pass && contentOk then Put(x, w, Ready(todo))
    else Put(x, w, Rejected(todo, false))
  }

  function FailEarlyStep(x: World, w: string, todo: seq<nat>, retryable: bool, p: Policy, now: int, draw: real,
                         seen: bool): World
  {
    if todo == [] then Put(x, w, Idle)
    else
      var j := todo[0];
      var attempts := if j < |x.db.queue.jobs| then x.db.queue.jobs[j].attempts else 0;
      var failure := EarlyVerdict(retryable, attempts, p, now, draw);
      match FinalizeClaimedFailure(x.db, j, w, failure)
      case Err(_) => Put(x, w, Idle)
      case Ok(db) =>
        var next := x.(db := db, earliest := if retryable then x.earliest[j := now + p.base / 2] else x.earliest);
        Put(next, w, if seen then AfterJob(todo) else Idle)
  }

  function BeginStep(x: World, w: string, todo: seq<nat>, seen: bool): World {
    if todo == [] then Put(x, w, Idle)
    else
      match BeginAttempt(x.db, todo[0], w)
      case Err(_) => Put(x, w, Idle)
      case Ok((db, number)) => Put(x.(db := db), w, if seen then Begun(Send(todo[0], number), todo) else Idle)
  }

  function FinishStep(x: World, w: string, send: Send, answer: Answer, todo: seq<nat>, p: Policy, now: int,
                      draw: real, seen: bool): World
    requires send.job < |x.db.queue.jobs|
  {
    match Trusted(answer, x.db.queue.jobs[send.job].recipient)
    case Confirmed(chat, message) =>
      (match FinalizeSuccess(x.db, send.job, w, Evidence(chat, message))
       case Err(_) => Put(x, w, Preserving(send, message))
       case Ok(db) => Put(x.(db := db), w, if seen then AfterJob(todo) else Preserving(send, message)))
    case Failed(error) =>
      var verdict := Classify(error, send.number, p, now, draw);
      match FinalizeFailure(x.db, send.job, w, Failure(verdict.result, verdict.code, verdict.nextAttemptAt))
      case Err(_) => Put(x, w, Idle)
      case Ok(db) =>
        var wait := if verdict.result == Retryable then Some(Earliest(now, p, error)) else None;
        Put(x.(db := db, earliest := if wait.Some? then x.earliest[send.job := wait.value] else x.earliest),
            w, if seen then AfterJob(todo) else Idle)
  }

  /** When the next send may start after a retryable failure now. */
  function Earliest(now: int, p: Policy, error: Option<SendError>): int {
    var asked := if error.Some? then error.value.retryAfter else 0;
    now + if asked > p.base / 2 then asked else p.base / 2
  }

  function PreserveStep(x: World, w: string, send: Send, message: int): World {
    match PreserveAmbiguous(x.db.queue, send.job, message, "database_finalize_failed")
    case Err(_) => Put(x, w, Idle)
    case Ok(queue) => Put(x.(db := x.db.(queue := queue)), w, Idle)
  }

  /** One event; an event that cannot happen leaves the world as it is. */
  function Next(x: World, p: Policy, e: Event): World {
    match e
    case Tick(now) => if now >= x.clock then x.(clock := now) else x
    case Other(a) =>
      if !Outside(a, x.clock) then x
      else
        var retried := Retried(x.db, a);
        x.(db := Step(x.db, a), earliest := if retried.Some? then x.earliest - {retried.value} else x.earliest)
    case Spawn(w) => if w in x.pcs then x else Put(x, w, Idle)
    case Crash(w) => if w in x.pcs then Put(x, w, Gone) else x
    case TakeBatch(w, picked, now, seen) =>
      if w in x.pcs && x.pcs[w] == Idle && now <= x.clock then
        var rows := ClaimedRows(x.db.queue, picked, w, now);
        Put(x.(db := x.db.(queue := ClaimJobs(x.db.queue, picked, w, now))), w, if seen then Working(rows) else Idle)
      else x
    case Load(w, contentOk, cancelled) =>
      if w in x.pcs && x.pcs[w].Working? then LoadStep(x, w, x.pcs[w].todo, contentOk, cancelled) else x
    case FailEarly(w, now, draw, seen) =>
      if w in x.pcs && x.pcs[w].Rejected? && now <= x.clock then
        FailEarlyStep(x, w, x.pcs[w].todo, x.pcs[w].retryable, p, now, draw, seen)
      else x
    case BeginSending(w, seen) =>
      if w in x.pcs && x.pcs[w].Ready? then BeginStep(x, w, x.pcs[w].todo, seen) else x
    case Call(w) =>
      if w in x.pcs && x.pcs[w].Begun? then
        Put(x.(net := x.net.(issued := x.net.issued + {x.pcs[w].send})), w, Waiting(x.pcs[w].send, x.pcs[w].todo))
      else x
    case Deliver(s) =>
      if s in x.net.issued && s !in x.net.refused then x.(net := x.net.(delivered := x.net.delivered + {s})) else x
    case Reply(w, answer) =>
      if w in x.pcs && x.pcs[w].Waiting? && Truthful(x.net, x.pcs[w].send, answer) then
        var net := if SaysRetryable(answer) then x.net.(refused := x.net.refused + {x.pcs[w].send}) else x.net;
        Put(x.(net := net), w, Answered(x.pcs[w].send, answer, x.pcs[w].todo))
      else x
    case Finish(w, now, draw, seen) =>
      if w in x.pcs && x.pcs[w].Answered? && x.pcs[w].send.job < |x.db.queue.jobs| && now <= x.clock then
        FinishStep(x, w, x.pcs[w].send, x.pcs[w].answer, x.pcs[w].todo, p, now, draw, seen)
      else x
    case PreserveSuccess(w) =>
      if w in x.pcs && x.pcs[w].Preserving? then PreserveStep(x, w, x.pcs[w].send, x.pcs[w].message) else x
    case Lose(w) =>
      if w in x.pcs then Put(x, w, Lost(x.db.queue, x.pcs[w])) else x
  }

  /** A transaction of the worker failed without committing: the batch ends, except
      that an unconfirmed success is preserved first. */
  function Lost(q: Queue, pc: Pc): Pc {
    match pc
    case Ready(_) => Idle
    case Rejected(_, _) => Idle
    case Answered(send, answer, _) =>
      if send.job < |q.jobs| && Trusted(answer, q.jobs[send.job].recipient).Confirmed? then
        Preserving(send, answer.message)
      else Idle
    case Preserving(_, _) => Idle
    case _ => pc
  }

  function Runs(x: World, p: Policy, events: seq<Event>): World
    decreases |events|
  {
    if events == [] then x else Runs(Next(x, p, events[0]), p, events[1..])
  }

  ghost predicate WorldOk(x: World) {
    && Inv(x.db)
    && NetOk(x.db.queue.attempts, x.net)
    && PcsOk(x.db.queue, x.net, x.pcs)
    && PacesOk(x.db.queue, x.earliest, x.clock)
  }

  // ---------- the rest of the shop ----------

  lemma HandoffIsHarmless(db: Db, o: nat, now: int, maxAttempts: nat)
    requires Handoff(db, o, now, maxAttempts).Ok?
    ensures Undisturbed(db.queue, Handoff(db, o, now, maxAttempts).value.0.queue, None)
  {
  }

  lemma FulfilIsHarmless(db: Db, o: nat, payment: nat, claimed: set<nat>, terms: Terms)
    requires o < |db.sales.orders|
    requires Fulfil(db, o, payment, claimed, terms).Ok?
    ensures Undisturbed(db.queue, Fulfil(db, o, payment, claimed, terms).value.queue, None)
  {
    var stock := InsertMappings(Reserve(db.stock, o, terms.until, claimed), o, claimed).value;
    var till := InsertAllocation(db.till, Allocation(payment, OrderTarget(o), db.sales.orders[o].total)).value;
    HandoffIsHarmless(db.(stock := stock, till := till), o, terms.now, terms.maxAttempts);
  }

  lemma OrderIsHarmless(db: Db, c: PaymentCommand, o: nat, terms: Terms)
    requires o < |db.sales.orders|
    requires AcceptForOrder(db, c, o, terms).Ok?
    ensures Undisturbed(db.queue, AcceptForOrder(db, c, o, terms).value.0.queue, None)
  {
    var order := db.sales.orders[o];
    var claimed := ExactSet(db.stock, order.product, order.quantity, terms.offered);
    if OrderProblem(order, c, terms.now) == "" && |claimed| == order.quantity {
      var till := InsertPayment(db.till, PaymentFor(c, Some(o), order.user, true)).value;
      var s2, handed := AcceptedForOrder(db, c, o, terms);
      FulfilIsHarmless(db.(sales := s2, till := till), o, |db.till.payments|, claimed, terms);
    }
  }

  lemma AcceptIsHarmless(db: Db, c: PaymentCommand, terms: Terms)
    requires AcceptPayment(db, c, terms).Ok?
    ensures Undisturbed(db.queue, AcceptPayment(db, c, terms).value.0.queue, None)
  {
    OnlyOrderPaymentsMove(db, c, terms);
    var order := FindByReference(db.sales, c.reference);
    if order.Some? && AcceptForOrder(db, c, order.value, terms).Ok? {
      OrderIsHarmless(db, c, order.value, terms);
    }
  }

  lemma WalletIsHarmless(db: Db, user: nat, o: nat, key: string, update: nat, terms: Terms)
    requires PayOrder(db, user, o, key, update, terms).Ok?
    ensures Undisturbed(db.queue, PayOrder(db, user, o, key, update, terms).value.0.queue, None)
  {
    if FindPayment(db.till, WALLET, db.sales.orders[o].environment, WalletTransaction(o)).None? {
      var (ensured, account) := EnsureAccount(db.wallets, user);
      FromWalletIsHarmless(db.(wallets := ensured), account, user, o, key, update, terms);
    }
  }

  lemma FromWalletIsHarmless(db: Db, account: nat, user: nat, o: nat, key: string, update: nat, terms: Terms)
    requires o < |db.sales.orders| && account < |db.wallets.accounts|
    requires PayFrom(db, account, user, o, key, update, terms).Ok?
    ensures Undisturbed(db.queue, PayFrom(db, account, user, o, key, update, terms).value.0.queue, None)
  {
    var order := db.sales.orders[o];
    var claimed := ExactSet(db.stock, order.product, order.quantity, terms.offered);
    var till := InsertPayment(db.till, WalletPaymentRow(order, user, o)).value;
    var s2, wallets, handed := PaidFromAccount(db, account, user, o, key, update, terms);
    FulfilIsHarmless(db.(sales := s2, till := till, wallets := wallets), o, |db.till.payments|, claimed, terms);
  }

  lemma ManualIsHarmless(db: Db, ticket: GateTable.Ticket, update: nat, c: PaymentCommand, terms: Terms)
    requires ManualAccept(db, ticket, update, c, terms).Ok?
    ensures Undisturbed(db.queue, ManualAccept(db, ticket, update, c, terms).value.0.queue, None)
  {
    AcceptIsHarmless(db, ByHand(c), terms);
  }

  lemma PayingIsHarmless(db: Db, a: PaymentAction)
    requires ExecPayment(db, a).Ok?
    ensures Undisturbed(db.queue, ExecPayment(db, a).value.queue, None)
  {
    match a
    case Accept(c, terms) => AcceptIsHarmless(db, c, terms);
    case AcceptBy(ticket, update, c, terms) => ManualIsHarmless(db, ticket, update, c, terms);
    case PayFromWallet(user, o, key, update, terms) => WalletIsHarmless(db, user, o, key, update, terms);
    case _ =>
  }

  lemma OrderingIsHarmless(db: Db, a: OrderAction)
    requires ExecOrder(db, a).Ok?
    ensures ExecOrder(db, a).value.queue == db.queue
  {
  }

  /** One stale job is recovered, for a time after its claim. */
  lemma RecoverOneIsHarmless(q: Queue, j: nat, now: int, staleBefore: int)
    requires QueueOk(q)
    requires j < |q.jobs| && IsStale(q.jobs[j], staleBefore) && staleBefore <= now
    ensures RecoverOne(q, j, now).Ok?
    ensures QueueOk(RecoverOne(q, j, now).value)
    ensures Undisturbed(q, RecoverOne(q, j, now).value, None)
  {
    RecoverOneQueue(q, j, now);
  }

  lemma {:induction false} RecoverIsHarmless(q: Queue, picked: seq<nat>, now: int, staleBefore: int)
    requires QueueOk(q) && staleBefore <= now
    ensures RecoverStale(q, picked, now, staleBefore).Ok?
    ensures Undisturbed(q, RecoverStale(q, picked, now, staleBefore).value, None)
    decreases |picked|
  {
    if picked == [] {
    } else {
      if picked[0] < |q.jobs| && IsStale(q.jobs[picked[0]], staleBefore) {
        RecoverOneIsHarmless(q, picked[0], now, staleBefore);
        var next := RecoverOne(q, picked[0], now).value;
        RecoverIsHarmless(next, picked[1..], now, staleBefore);
        UndisturbedComposes(q, next, RecoverStale(q, picked, now, staleBefore).value);
      } else {
        RecoverIsHarmless(q, picked[1..], now, staleBefore);
      }
    }
  }

  lemma RetryIsHarmless(db: Db, ticket: Ticket, update: nat, j: nat, version: nat, now: int)
    requires RetryDelivery(db, ticket, update, j, version, now).Ok?
    ensures Undisturbed(db.queue, RetryDelivery(db, ticket, update, j, version, now).value.queue, Some(j))
  {
  }

  lemma CompleteIsHarmless(db: Db, ticket: Ticket, update: nat, j: nat, version: nat, message: int, now: int)
    requires CompleteDelivery(db, ticket, update, j, version, message, now).Ok?
    ensures Undisturbed(db.queue, CompleteDelivery(db, ticket, update, j, version, message, now).value.queue, None)
  {
    CompleteShape(db, ticket, update, j, version, message, now);
  }

  /** Whatever the rest of the shop commits leaves the delivery protocol alone. */
  lemma OutsideIsHarmless(db: Db, a: Action, clock: int)
    requires Inv(db)
    requires Outside(a, clock) && Exec(db, a).Ok?
    ensures Undisturbed(db.queue, Exec(db, a).value.queue, Retried(db, a))
  {
    match a
    case Setup(_) =>
    case AtGate(_) =>
    case Ordering(action) => OrderingIsHarmless(db, action);
    case Paying(action) => PayingIsHarmless(db, action);
    case Shipping(RecoverBatch(picked, now, staleBefore)) =>
      assert Holds(QueueSound, db);
      RecoverIsHarmless(db.queue, picked, now, staleBefore);
    case Shipping(BackfillBatch(picked, now, maxAttempts)) => BackfillDoesNothing(db, picked, now, maxAttempts);
    case Shipping(RetryBy(ticket, update, j, version, now)) => RetryIsHarmless(db, ticket, update, j, version, now);
    case Shipping(CompleteBy(ticket, update, j, version, message, now)) =>
      CompleteIsHarmless(db, ticket, update, j, version, message, now);
    case Shipping(_) =>
  }

  lemma OtherKeeps(x: World, p: Policy, a: Action)
    requires WorldOk(x)
    ensures WorldOk(Next(x, p, Other(a)))
  {
    if Outside(a, x.clock) {
      StepKeeps(x.db, a);
      if Exec(x.db, a).Ok? {
        OutsideIsHarmless(x.db, a, x.clock);
        UndisturbedKeeps(x.db.queue, Step(x.db, a).queue, x.net, x.pcs, x.earliest, x.clock, Retried(x.db, a));
      }
    }
  }

  // ---------- the worker's transactions ----------

  lemma TakeBatchKeeps(x: World, p: Policy, w: string, picked: seq<nat>, now: int, seen: bool)
    requires WorldOk(x)
    ensures WorldOk(Next(x, p, TakeBatch(w, picked, now, seen)))
  {
    if w in x.pcs && x.pcs[w] == Idle && now <= x.clock {
      ClaimKeeps(x.db, picked, w, now);
      ClaimKeepsProtocol(x.db.queue, x.net, x.pcs, x.earliest, x.clock, picked, w, now);
      var q' := ClaimJobs(x.db.queue, picked, w, now);
      PcMoves(q', x.net, x.pcs, w, if seen then Working(ClaimedRows(x.db.queue, picked, w, now)) else Idle);
    }
  }

  lemma FailEarlyKeeps(x: World, w: string, todo: seq<nat>, retryable: bool, p: Policy, now: int, draw: real,
                       seen: bool)
    requires WorldOk(x)
    requires w in x.pcs && !InFlight(x.pcs[w])
    ensures WorldOk(FailEarlyStep(x, w, todo, retryable, p, now, draw, seen))
  {
    var q := x.db.queue;
    if todo == [] {
      PcMoves(q, x.net, x.pcs, w, Idle);
      return;
    }
    var j := todo[0];
    var attempts := if j < |q.jobs| then q.jobs[j].attempts else 0;
    var failure := EarlyVerdict(retryable, attempts, p, now, draw);
    if FinalizeClaimedFailure(x.db, j, w, failure).Err? {
      PcMoves(q, x.net, x.pcs, w, Idle);
    } else {
      ClaimedFailureKeeps(x.db, j, w, failure);
      EarlyFailureSettles(x, w, j, retryable, p, now, draw);
      var db' := FinalizeClaimedFailure(x.db, j, w, failure).value;
      PcMoves(db'.queue, x.net, x.pcs, w, if seen then AfterJob(todo) else Idle);
    }
  }

  lemma EarlyFailureSettles(x: World, w: string, j: nat, retryable: bool, p: Policy, now: int, draw: real)
    requires WorldOk(x)
    requires j < |x.db.queue.jobs|
    requires FinalizeClaimedFailure(x.db, j, w, EarlyVerdict(retryable, x.db.queue.jobs[j].attempts, p, now, draw)).Ok?
    ensures var db' :=
            FinalizeClaimedFailure(x.db, j, w,
                                   EarlyVerdict(retryable, x.db.queue.jobs[j].attempts, p, now, draw)).value;
            && NetOk(db'.queue.attempts, x.net) && PcsOk(db'.queue, x.net, x.pcs)
            && PacesOk(db'.queue, if retryable then x.earliest[j := now + p.base / 2] else x.earliest, x.clock)
  {
    var attempts := x.db.queue.jobs[j].attempts;
    var failure := EarlyVerdict(retryable, attempts, p, now, draw);
    assert Holds(QueueSound, x.db);
    ClaimedFailureShape(x.db, j, w, failure);
    assert failure.result == Retryable ==> failure.nextAttemptAt >= now + p.base / 2 by {
      HalfBase(p, attempts + 1, 0, draw);
    }
    var due := if retryable then Some(now + p.base / 2) else None;
    SettleKeepsProtocol(x.db.queue, FinalizeClaimedFailure(x.db, j, w, failure).value.queue, x.net, x.pcs,
                        x.earliest, x.clock,
                        Send(j, attempts + 1), FailureStatus(failure.result), due);
  }

  lemma BeginRow(db: Db, j: nat, w: string)
    requires QueueOk(db.queue)
    requires BeginAttempt(db, j, w).Ok?
    ensures var (db', number) := BeginAttempt(db, j, w).value;
            && db' == db.(queue := db'.queue)
            && OneRow(db.queue, db'.queue, j, KeyOf(Send(j, number)))
            && AttemptKey(j, number, FailedRetryable) !in db.queue.attempts
            && IsSendingBy(db'.queue.jobs[j], w) && db'.queue.jobs[j].attempts == number
  {
    BeginKeepsQueue(db.queue, j, w, AttemptRow("", None));
    assert JobOk(db.queue.jobs[j], db.queue.attempts, j);
    NextNumberIsFresh(db.queue.jobs[j], db.queue.attempts, j);
  }

  lemma BeginKeepsWorld(x: World, w: string, todo: seq<nat>, seen: bool)
    requires WorldOk(x)
    requires w in x.pcs && !InFlight(x.pcs[w])
    ensures WorldOk(BeginStep(x, w, todo, seen))
  {
    var q := x.db.queue;
    if todo == [] || BeginAttempt(x.db, todo[0], w).Err? {
      PcMoves(q, x.net, x.pcs, w, Idle);
    } else {
      var (db', number) := BeginAttempt(x.db, todo[0], w).value;
      BeginKeeps(x.db, todo[0], w);
      assert Holds(QueueSound, x.db);
      BeginRow(x.db, todo[0], w);
      BeginKeepsProtocol(q, db'.queue, x.net, x.pcs, x.earliest, x.clock, w, Send(todo[0], number), todo);
      PcMoves(db'.queue, x.net, x.pcs[w := Begun(Send(todo[0], number), todo)], w, Idle);
      assert x.pcs[w := Begun(Send(todo[0], number), todo)][w := Idle] == x.pcs[w := Idle];
    }
  }

  lemma ConfirmKeeps(x: World, w: string, send: Send, answer: Answer, todo: seq<nat>, p: Policy, now: int,
                     draw: real, seen: bool)
    requires WorldOk(x)
    requires w in x.pcs && x.pcs[w] == Answered(send, answer, todo)
    requires send.job < |x.db.queue.jobs|
    requires Trusted(answer, x.db.queue.jobs[send.job].recipient).Confirmed?
    ensures WorldOk(FinishStep(x, w, send, answer, todo, p, now, draw, seen))
  {
    var q := x.db.queue;
    var j := send.job;
    var evidence := Evidence(answer.chat, answer.message);
    assert PcOk(q, x.net, w, x.pcs[w]);
    if FinalizeSuccess(x.db, j, w, evidence).Err? {
      PcMoves(q, x.net, x.pcs, w, Preserving(send, answer.message));
    } else {
      var db' := FinalizeSuccess(x.db, j, w, evidence).value;
      SuccessKeeps(x.db, j, w, evidence);
      if q.jobs[j].status != JobCompleted {
        assert Holds(QueueSound, x.db);
        SuccessShape(x.db, j, w, evidence);
        SettleKeepsProtocol(q, db'.queue, x.net, x.pcs, x.earliest, x.clock, send, Succeeded, None);
      }
      assert PcOk(db'.queue, x.net, w, x.pcs[w]);
      PcMoves(db'.queue, x.net, x.pcs, w, if seen then AfterJob(todo) else Preserving(send, answer.message));
    }
  }

  lemma ReportKeeps(x: World, w: string, send: Send, answer: Answer, todo: seq<nat>, p: Policy, now: int, draw: real,
                    seen: bool)
    requires WorldOk(x)
    requires w in x.pcs && x.pcs[w] == Answered(send, answer, todo)
    requires send.job < |x.db.queue.jobs|
    requires Trusted(answer, x.db.queue.jobs[send.job].recipient).Failed?
    ensures WorldOk(FinishStep(x, w, send, answer, todo, p, now, draw, seen))
  {
    var q := x.db.queue;
    var j := send.job;
    var error := Trusted(answer, q.jobs[j].recipient).error;
    var verdict := Classify(error, send.number, p, now, draw);
    var failure := Failure(verdict.result, verdict.code, verdict.nextAttemptAt);
    if FinalizeFailure(x.db, j, w, failure).Err? {
      PcMoves(q, x.net, x.pcs, w, Idle);
    } else {
      var db' := FinalizeFailure(x.db, j, w, failure).value;
      FailureKeeps(x.db, j, w, failure);
      assert Holds(QueueSound, x.db);
      FailureQueue(x.db, j, w, failure);
      FailureSales(x.db, j, w, failure);
      assert PcOk(q, x.net, w, x.pcs[w]);
      RetryableOnlyOnEvidence(error, send.number, p, now, draw);
      var due := if verdict.result == Retryable then Some(Earliest(now, p, error)) else None;
      SettleKeepsProtocol(q, db'.queue, x.net, x.pcs, x.earliest, x.clock, send, FailureStatus(verdict.result), due);
      PcMoves(db'.queue, x.net, x.pcs, w, if seen then AfterJob(todo) else Idle);
    }
  }

  lemma PreserveKeepsWorld(x: World, w: string, send: Send, message: int)
    requires WorldOk(x)
    requires w in x.pcs && InFlight(x.pcs[w])
    ensures WorldOk(PreserveStep(x, w, send, message))
  {
    var q := x.db.queue;
    var r := PreserveAmbiguous(q, send.job, message, "database_finalize_failed");
    if r.Ok? {
      PreserveKeeps(x.db, send.job, message, "database_finalize_failed");
      if q.jobs[send.job].status != JobCompleted {
        assert Holds(QueueSound, x.db);
        PreserveQueue(q, send.job, message, "database_finalize_failed");
        SettleKeepsProtocol(q, r.value, x.net, x.pcs, x.earliest, x.clock, Send(send.job, q.jobs[send.job].attempts),
                            FailedAmbiguous, None);
      }
      PcMoves(r.value, x.net, x.pcs, w, Idle);
    } else {
      PcMoves(q, x.net, x.pcs, w, Idle);
    }
  }

  // ---------- events that commit nothing ----------

  lemma TickKeeps(x: World, p: Policy, now: int)
    requires WorldOk(x)
    ensures WorldOk(Next(x, p, Tick(now)))
  {
    forall j | j in x.earliest && now >= x.clock
      ensures PaceOk(x.db.queue.jobs[j], x.earliest[j], now)
    {
      assert PaceOk(x.db.queue.jobs[j], x.earliest[j], x.clock);
    }
  }

  lemma SpawnKeeps(x: World, p: Policy, w: string)
    requires WorldOk(x)
    ensures WorldOk(Next(x, p, Spawn(w)))
  {
    var pcs' := x.pcs[w := Idle];
    if w !in x.pcs {
      forall v | v in pcs'
        ensures PcOk(x.db.queue, x.net, v, pcs'[v])
      {
        if v != w {
          assert PcOk(x.db.queue, x.net, v, x.pcs[v]);
        }
      }
    }
  }

  lemma CrashKeeps(x: World, p: Policy, w: string)
    requires WorldOk(x)
    ensures WorldOk(Next(x, p, Crash(w)))
  {
    if w in x.pcs {
      PcMoves(x.db.queue, x.net, x.pcs, w, Gone);
    }
  }

  lemma LoadKeeps(x: World, p: Policy, w: string, contentOk: bool, cancelled: bool)
    requires WorldOk(x)
    ensures WorldOk(Next(x, p, Load(w, contentOk, cancelled)))
  {
    if w in x.pcs && x.pcs[w].Working? {
      PcMoves(x.db.queue, x.net, x.pcs, w, LoadStep(x, w, x.pcs[w].todo, contentOk, cancelled).pcs[w]);
    }
  }

  lemma LoseKeeps(x: World, p: Policy, w: string)
    requires WorldOk(x)
    ensures WorldOk(Next(x, p, Lose(w)))
  {
    if w in x.pcs {
      assert PcOk(x.db.queue, x.net, w, x.pcs[w]);
      PcMoves(x.db.queue, x.net, x.pcs, w, Lost(x.db.queue, x.pcs[w]));
    }
  }

  lemma NetworkKeeps(x: World, p: Policy, e: Event)
    requires WorldOk(x)
    requires e.Call? || e.Deliver? || e.Reply?
    ensures WorldOk(Next(x, p, e))
  {
    match e
    case Call(w) =>
      if w in x.pcs && x.pcs[w].Begun? {
        CallKeepsProtocol(x.db.queue, x.net, x.pcs, w);
      }
    case Deliver(s) =>
      if s in x.net.issued && s !in x.net.refused {
        DeliverKeepsProtocol(x.db.queue, x.net, x.pcs, s);
      }
    case Reply(w, answer) =>
      if w in x.pcs && x.pcs[w].Waiting? && Truthful(x.net, x.pcs[w].send, answer) {
        ReplyKeepsProtocol(x.db.queue, x.net, x.pcs, w, answer);
      }
  }

  /** Every event keeps the world sound. */
  lemma NextKeeps(x: World, p: Policy, e: Event)
    requires WorldOk(x)
    ensures WorldOk(Next(x, p, e))
  {
    match e
    case Other(a) => OtherKeeps(x, p, a);
    case TakeBatch(w, picked, now, seen) => TakeBatchKeeps(x, p, w, picked, now, seen);
    case FailEarly(w, now, draw, seen) =>
      if w in x.pcs && x.pcs[w].Rejected? && now <= x.clock {
        FailEarlyKeeps(x, w, x.pcs[w].todo, x.pcs[w].retryable, p, now, draw, seen);
      }
    case BeginSending(w, seen) =>
      if w in x.pcs && x.pcs[w].Ready? {
        BeginKeepsWorld(x, w, x.pcs[w].todo, seen);
      }
    case Finish(w, now, draw, seen) =>
      if w in x.pcs && x.pcs[w].Answered? && x.pcs[w].send.job < |x.db.queue.jobs| && now <= x.clock {
        var pc := x.pcs[w];
        if Trusted(pc.answer, x.db.queue.jobs[pc.send.job].recipient).Confirmed? {
          ConfirmKeeps(x, w, pc.send, pc.answer, pc.todo, p, now, draw, seen);
        } else {
          ReportKeeps(x, w, pc.send, pc.answer, pc.todo, p, now, draw, seen);
        }
      }
    case PreserveSuccess(w) =>
      if w in x.pcs && x.pcs[w].Preserving? {
        PreserveKeepsWorld(x, w, x.pcs[w].send, x.pcs[w].message);
      }
    case Tick(now) => TickKeeps(x, p, now);
    case Spawn(w) => SpawnKeeps(x, p, w);
    case Crash(w) => CrashKeeps(x, p, w);
    case Load(w, contentOk, cancelled) => LoadKeeps(x, p, w, contentOk, cancelled);
    case Lose(w) => LoseKeeps(x, p, w);
    case _ => NetworkKeeps(x, p, e);
  }

  lemma {:induction false} RunsKeep(x: World, p: Policy, events: seq<Event>)
    requires WorldOk(x)
    ensures WorldOk(Runs(x, p, events))
    decreases |events|
  {
    if events == [] {
    } else {
      NextKeeps(x, p, events[0]);
      RunsKeep(Next(x, p, events[0]), p, events[1..]);
    }
  }

  function Start(clock: int): World {
    World(Empty(), Net({}, {}, {}), map[], clock, map[])
  }

  // ---------- counting manual retries ----------

  /** The job an event retries by hand, if the transaction commits. */
  function RetriedBy(x: World, e: Event): Option<nat> {
    if e.Other? && Outside(e.action, x.clock) then Retried(x.db, e.action) else None
  }

  /** How many manual retries of a job commit in a run. */
  function RetriesCommitted(x: World, p: Policy, events: seq<Event>, j: nat): nat
    decreases |events|
  {
    if events == [] then 0
    else
      (if RetriedBy(x, events[0]) == Some(j) then 1 else 0)
      + RetriesCommitted(Next(x, p, events[0]), p, events[1..], j)
  }

  lemma RetryAddsOne(db: Db, ticket: Ticket, update: nat, j: nat, version: nat, now: int, i: nat)
    requires RetryDelivery(db, ticket, update, j, version, now).Ok?
    ensures var log' := RetryDelivery(db, ticket, update, j, version, now).value.queue.attempts;
            |Retries(log', i)| == |Retries(db.queue.attempts, i)| + if i == j then 1 else 0
  {
    var key := AttemptKey(j, db.queue.jobs[j].attempts + 1, ManualResolution);
    RowAdded(db.queue.attempts, key, AttemptRow(NOT_DELIVERED, None));
    if i == j {
      assert key !in Retries(db.queue.attempts, j);
    } else {
      SameRowsSameSets(db.queue.attempts, db.queue.attempts[key := AttemptRow(NOT_DELIVERED, None)], i);
    }
  }

  lemma OtherCounts(x: World, p: Policy, a: Action, j: nat)
    requires Inv(x.db)
    ensures |Retries(Next(x, p, Other(a)).db.queue.attempts, j)| ==
            |Retries(x.db.queue.attempts, j)| + if RetriedBy(x, Other(a)) == Some(j) then 1 else 0
  {
    if Outside(a, x.clock) && Exec(x.db, a).Ok? {
      if a.Shipping? && a.delivery.RetryBy? {
        RetryAddsOne(x.db, a.delivery.ticket, a.delivery.update, a.delivery.j, a.delivery.version, a.delivery.now, j);
      } else {
        OutsideIsHarmless(x.db, a, x.clock);
        SameRetries(x.db.queue.attempts, Step(x.db, a).queue.attempts, j);
      }
    }
  }

  lemma FailEarlyLogs(db: Db, j: nat, w: string, failure: Failure)
    requires FinalizeClaimedFailure(db, j, w, failure).Ok?
    ensures NoRetryRows(db.queue.attempts, FinalizeClaimedFailure(db, j, w, failure).value.queue.attempts)
  {
  }

  lemma BeginLogs(db: Db, j: nat, w: string)
    requires BeginAttempt(db, j, w).Ok?
    ensures NoRetryRows(db.queue.attempts, BeginAttempt(db, j, w).value.0.queue.attempts)
  {
  }

  lemma SuccessLogs(db: Db, j: nat, w: string, evidence: Evidence)
    requires FinalizeSuccess(db, j, w, evidence).Ok?
    ensures NoRetryRows(db.queue.attempts, FinalizeSuccess(db, j, w, evidence).value.queue.attempts)
  {
  }

  lemma FailureLogs(db: Db, j: nat, w: string, failure: Failure)
    requires FinalizeFailure(db, j, w, failure).Ok?
    ensures NoRetryRows(db.queue.attempts, FinalizeFailure(db, j, w, failure).value.queue.attempts)
  {
  }

  lemma PreserveLogs(q: Queue, j: nat, message: int, reason: string)
    requires PreserveAmbiguous(q, j, message, reason).Ok?
    ensures NoRetryRows(q.attempts, PreserveAmbiguous(q, j, message, reason).value.attempts)
  {
  }

  lemma FinishLogs(x: World, w: string, send: Send, answer: Answer, todo: seq<nat>, p: Policy, now: int, draw: real,
                   seen: bool)
    requires send.job < |x.db.queue.jobs|
    ensures NoRetryRows(x.db.queue.attempts, FinishStep(x, w, send, answer, todo, p, now, draw, seen).db.queue.attempts)
  {
    match Trusted(answer, x.db.queue.jobs[send.job].recipient)
    case Confirmed(chat, message) =>
      if FinalizeSuccess(x.db, send.job, w, Evidence(chat, message)).Ok? {
        SuccessLogs(x.db, send.job, w, Evidence(chat, message));
      }
    case Failed(error) =>
      var verdict := Classify(error, send.number, p, now, draw);
      var failure := Failure(verdict.result, verdict.code, verdict.nextAttemptAt);
      if FinalizeFailure(x.db, send.job, w, failure).Ok? {
        FailureLogs(x.db, send.job, w, failure);
      }
  }

  lemma FailEarlyStepLogs(x: World, w: string, todo: seq<nat>, retryable: bool, p: Policy, now: int, draw: real,
                          seen: bool)
    ensures NoRetryRows(x.db.queue.attempts,
                        FailEarlyStep(x, w, todo, retryable, p, now, draw, seen).db.queue.attempts)
  {
    if todo != [] {
      var attempts := if todo[0] < |x.db.queue.jobs| then x.db.queue.jobs[todo[0]].attempts else 0;
      var failure := EarlyVerdict(retryable, attempts, p, now, draw);
      if FinalizeClaimedFailure(x.db, todo[0], w, failure).Ok? {
        FailEarlyLogs(x.db, todo[0], w, failure);
      }
    }
  }

  /** The steps of the workers and of the network log no manual retry. */
  lemma WorkerLogs(x: World, p: Policy, e: Event)
    requires !e.Other?
    ensures NoRetryRows(x.db.queue.attempts, Next(x, p, e).db.queue.attempts)
  {
    match e
    case TakeBatch(w, picked, now, seen) => ClaimsAreDue(x.db.queue, picked, w, now);
    case FailEarly(w, now, draw, seen) =>
      if w in x.pcs && x.pcs[w].Rejected? && now <= x.clock {
        FailEarlyStepLogs(x, w, x.pcs[w].todo, x.pcs[w].retryable, p, now, draw, seen);
      }
    case BeginSending(w, seen) =>
      if w in x.pcs && x.pcs[w].Ready? && x.pcs[w].todo != [] && BeginAttempt(x.db, x.pcs[w].todo[0], w).Ok? {
        BeginLogs(x.db, x.pcs[w].todo[0], w);
      }
    case Finish(w, now, draw, seen) =>
      if w in x.pcs && x.pcs[w].Answered? && x.pcs[w].send.job < |x.db.queue.jobs| && now <= x.clock {
        FinishLogs(x, w, x.pcs[w].send, x.pcs[w].answer, x.pcs[w].todo, p, now, draw, seen);
      }
    case PreserveSuccess(w) =>
      if w in x.pcs && x.pcs[w].Preserving? {
        var pc := x.pcs[w];
        if PreserveAmbiguous(x.db.queue, pc.send.job, pc.message, "database_finalize_failed").Ok? {
          PreserveLogs(x.db.queue, pc.send.job, pc.message, "database_finalize_failed");
        }
      }
    case _ =>
  }

  /** The log of a job has one retry row for each manual retry that committed. */
  lemma {:induction false} RetriesAreCounted(x: World, p: Policy, events: seq<Event>, j: nat)
    requires WorldOk(x)
    ensures |Retries(Runs(x, p, events).db.queue.attempts, j)| ==
            |Retries(x.db.queue.attempts, j)| + RetriesCommitted(x, p, events, j)
    decreases |events|
  {
    if events == [] {
    } else {
      var e := events[0];
      if e.Other? {
        OtherCounts(x, p, e.action, j);
      } else {
        WorkerLogs(x, p, e);
        SameRetries(x.db.queue.attempts, Next(x, p, e).db.queue.attempts, j);
      }
      NextKeeps(x, p, e);
      RetriesAreCounted(Next(x, p, e), p, events[1..], j);
    }
  }

  // ---------- the claims ----------

  /** At most once: in every interleaving, the customer receives at most one message
      of a job, and one more for each manual retry that committed. */
  lemma DeliveredAtMostOncePerRetry(p: Policy, clock: int, events: seq<Event>, j: nat)
    ensures var x := Runs(Start(clock), p, events);
            var retries := RetriesCommitted(Start(clock), p, events, j);
            && |Retries(x.db.queue.attempts, j)| == retries
            && |DeliveredOf(x.net, j)| <= 1 + retries
            && (j < |x.db.queue.jobs| ==> |IssuedOf(x.net, j)| <= x.db.queue.jobs[j].granted + retries)
  {
    EmptyIsSound();
    RunsKeep(Start(clock), p, events);
    RetriesAreCounted(Start(clock), p, events, j);
    assert Retries(Empty().queue.attempts, j) == {};
    var x := Runs(Start(clock), p, events);
    DeliveredIsOpen(x.db.queue.attempts, x.net, j);
    assert Holds(QueueSound, x.db);
    if j < |x.db.queue.jobs| {
      DeliveredAtMostOnce(x.db.queue, x.net, j);
      SendsWithinBudget(x.db.queue, x.net, j);
    } else {
      assert Opened(x.db.queue.attempts, j) == {};
    }
  }

  /** An in-flight worker that still owns a sending job holds its newest attempt,
      and that attempt has no outcome yet. */
  lemma OwnerHoldsNewest(p: Policy, clock: int, events: seq<Event>, w: string)
    ensures var x := Runs(Start(clock), p, events);
            var q := x.db.queue;
            w in x.pcs && InFlight(x.pcs[w]) ==>
              && x.pcs[w].send.job < |q.jobs|
              && (IsSendingBy(q.jobs[x.pcs[w].send.job], w) ==>
                    && q.jobs[x.pcs[w].send.job].attempts == x.pcs[w].send.number
                    && Outcomes(q.attempts, x.pcs[w].send.job, x.pcs[w].send.number) == {})
  {
    EmptyIsSound();
    RunsKeep(Start(clock), p, events);
    var x := Runs(Start(clock), p, events);
    assert Holds(QueueSound, x.db);
    if w in x.pcs && InFlight(x.pcs[w]) {
      assert PcOk(x.db.queue, x.net, w, x.pcs[w]);
      assert JobOk(x.db.queue.jobs[x.pcs[w].send.job], x.db.queue.attempts, x.pcs[w].send.job);
    }
  }

  /** A send begins only when its job's backoff has passed; and if no manual retry of
      the job committed, only when nothing of it was delivered. */
  lemma BeginIsSafe(p: Policy, clock: int, events: seq<Event>, j: nat, w: string)
    ensures var x := Runs(Start(clock), p, events);
            BeginAttempt(x.db, j, w).Ok? ==>
              && (j in x.earliest ==> x.clock >= x.earliest[j])
              && (RetriesCommitted(Start(clock), p, events, j) == 0 ==>
                    && DeliveredOf(x.net, j) == {}
                    && forall n: nat :: KeyOf(Send(j, n)) in x.db.queue.attempts ==>
                       AttemptKey(j, n, FailedRetryable) in x.db.queue.attempts)
  {
    EmptyIsSound();
    RunsKeep(Start(clock), p, events);
    var x := Runs(Start(clock), p, events);
    assert Holds(QueueSound, x.db);
    if BeginAttempt(x.db, j, w).Ok? {
      if j in x.earliest {
        BeginIsPaced(x.db.queue, x.earliest, x.clock, j, w);
      }
      RetriesAreCounted(Start(clock), p, events, j);
      assert Retries(Empty().queue.attempts, j) == {};
      if RetriesCommitted(Start(clock), p, events, j) == 0 {
        BeginFindsNothingDelivered(x.db.queue, x.net, j, w);
      }
    }
  }
}
