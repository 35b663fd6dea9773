/** Exactly-once commits: over any run, a Telegram update is consumed by at most
    one committed transaction, and so is each version of an admin session. */
module ExactlyOnce {
  import opened Results
  import opened Database
  import opened Delivery
  import opened DeliveryAdmin
  import opened GateTable
  import opened PaymentAcceptance
  import opened PaymentAdmin
  import opened SalesTable
  import opened StockTable
  import TillTable
  import WalletTable
  import opened Shop
  import opened WalletStore

  /** The update whose receipt a committed action completes. */
  function Consumes(a: Action): Option<nat> {
    match a
    case Setup(action) => if action.EditBy? then Some(action.update) else None
    case AtGate(Claim(_, _, _)) => None
    case AtGate(Fail(_)) => None
    case AtGate(action) => Some(action.update)
    case Ordering(action) =>
      if action.Create? || action.CancelBy? || action.ImportBy? || action.SwitchBy? then Some(action.update) else None
    case Paying(action) =>
      if action.AcceptBy? || action.ResolveBy? || action.AskTopup? || action.PayFromWallet? || action.AdjustBy? then
        Some(action.update)
      else None
    case Shipping(action) => if action.RetryBy? || action.CompleteBy? then Some(action.update) else None
  }

  /** The session version a committed action uses up. */
  function Spends(a: Action): Option<Ticket> {
    match a
    case Setup(action) => if action.EditBy? then Some(action.ticket) else None
    case AtGate(action) => if action.Continue? || action.Cancel? then Some(action.ticket) else None
    case Ordering(action) => if action.ImportBy? || action.SwitchBy? then Some(action.ticket) else None
    case Paying(action) =>
      if action.AcceptBy? || action.ResolveBy? || action.AdjustBy? then Some(action.ticket) else None
    case Shipping(action) => if action.RetryBy? || action.CompleteBy? then Some(action.ticket) else None
  }

  predicate Done(g: Gate, update: nat) {
    update in g.receipts && g.receipts[update] == ReceiptCompleted
  }

  /** What one committed action does to the gate: it moves forward; the update it
      consumes was being processed and is now done; the session version it
      spends was current and is now past. */
  ghost predicate GateStep(g: Gate, g': Gate, update: Option<nat>, ticket: Option<Ticket>) {
    && Forward(g, g')
    && (update.Some? ==> Processing(g, update.value) && Done(g', update.value))
    && (ticket.Some? ==>
          && ticket.value.session < |g.sessions|
          && g.sessions[ticket.value.session].version == ticket.value.version
          && g'.sessions[ticket.value.session].version == ticket.value.version + 1)
  }

  lemma LeaveSteps(g: Gate, ticket: Ticket, update: nat, now: int)
    requires Leave(g, ticket, update, now).Ok?
    ensures GateStep(g, Leave(g, ticket, update, now).value, Some(update), Some(ticket))
  {
  }

  lemma ReceiptSteps(g: Gate, update: nat)
    requires CompleteReceipt(g, update).Ok?
    ensures GateStep(g, CompleteReceipt(g, update).value, Some(update), None)
  {
  }

  lemma AtGateSteps(g: Gate, a: GateAction)
    requires ExecGate(g, a).Ok?
    ensures GateStep(g, ExecGate(g, a).value, Consumes(AtGate(a)), Spends(AtGate(a)))
  {
  }

  lemma OrderingSteps(db: Db, a: OrderAction)
    requires ExecOrder(db, a).Ok?
    ensures GateStep(db.gate, ExecOrder(db, a).value.gate, Consumes(Ordering(a)), Spends(Ordering(a)))
  {
    match a
    case Create(_, update, _, _) => ReceiptSteps(db.gate, update);
    case CancelBy(_, _, _, update, _) => ReceiptSteps(db.gate, update);
    case ImportBy(ticket, update, _, _, now) => LeaveSteps(db.gate, ticket, update, now);
    case SwitchBy(ticket, update, _, _, _, now) => LeaveSteps(db.gate, ticket, update, now);
    case _ =>
  }

  lemma FulfilGate(db: Db, o: nat, payment: nat, claimed: set<nat>, terms: Terms)
    requires o < |db.sales.orders|
    requires Fulfil(db, o, payment, claimed, terms).Ok?
    ensures Fulfil(db, o, payment, claimed, terms).value.gate == db.gate
  {
  }

  lemma OrderGate(db: Db, c: PaymentCommand, o: nat, terms: Terms)
    requires o < |db.sales.orders|
    requires AcceptForOrder(db, c, o, terms).Ok?
    ensures AcceptForOrder(db, c, o, terms).value.0.gate == db.gate
  {
    var order := db.sales.orders[o];
    var claimed := ExactSet(db.stock, order.product, order.quantity, terms.offered);
    if OrderProblem(order, c, terms.now) == "" && |claimed| == order.quantity {
      var till := TillTable.InsertPayment(db.till, PaymentFor(c, Some(o), order.user, true)).value;
      var s2, handed := AcceptedForOrder(db, c, o, terms);
      FulfilGate(db.(sales := s2, till := till), o, |db.till.payments|, claimed, terms);
    }
  }

  lemma AcceptGate(db: Db, c: PaymentCommand, terms: Terms)
    requires AcceptPayment(db, c, terms).Ok?
    ensures AcceptPayment(db, c, terms).value.0.gate == db.gate
  {
    OnlyOrderPaymentsMove(db, c, terms);
    var order := FindByReference(db.sales, c.reference);
    if order.Some? && AcceptForOrder(db, c, order.value, terms).Ok? {
      OrderGate(db, c, order.value, terms);
    }
  }

  lemma WalletGate(db: Db, user: nat, o: nat, key: string, update: nat, terms: Terms)
    requires PayOrder(db, user, o, key, update, terms).Ok?
    ensures CompleteReceipt(db.gate, update) == Ok(PayOrder(db, user, o, key, update, terms).value.0.gate)
  {
    var order := db.sales.orders[o];
    if TillTable.FindPayment(db.till, WALLET, order.environment, WalletTransaction(o)).None? {
      var (ensured, account) := WalletTable.EnsureAccount(db.wallets, user);
      assert PayFrom(db.(wallets := ensured), account, user, o, key, update, terms).Ok?;
    }
  }

  lemma ManualGate(db: Db, ticket: Ticket, update: nat, c: PaymentCommand, terms: Terms)
    requires ManualAccept(db, ticket, update, c, terms).Ok?
    ensures Leave(db.gate, ticket, update, terms.now) == Ok(ManualAccept(db, ticket, update, c, terms).value.0.gate)
  {
    AcceptGate(db, ByHand(c), terms);
  }

  lemma ResolveGate(db: Db, ticket: Ticket, update: nat, review: nat, status: TillTable.ReviewStatus, now: int)
    requires ResolveReviewCase(db, ticket, update, review, status, now).Ok?
    ensures Leave(db.gate, ticket, update, now) ==
            Ok(ResolveReviewCase(db, ticket, update, review, status, now).value.gate)
  {
  }

  lemma TopupGate(db: Db, request: TopupRequest, update: nat)
    requires CreateTopup(db, request, update).Ok?
    ensures CompleteReceipt(db.gate, update) == Ok(CreateTopup(db, request, update).value.0.gate)
  {
  }

  lemma AdjustGate(db: Db, ticket: Ticket, update: nat, user: nat, amount: int, key: string, now: int)
    requires AdjustWallet(db, ticket, update, user, amount, key, now).Ok?
    ensures Leave(db.gate, ticket, update, now) ==
            Ok(AdjustWallet(db, ticket, update, user, amount, key, now).value.gate)
  {
  }

  lemma BookkeepingGate(db: Db, a: PaymentAction)
    requires ExecPayment(db, a).Ok?
    requires !a.Accept? && !a.AcceptBy? && !a.ResolveBy? && !a.AskTopup? && !a.PayFromWallet? && !a.AdjustBy?
    ensures ExecPayment(db, a).value.gate == db.gate
  {
  }

  lemma PayingSteps(db: Db, a: PaymentAction)
    requires ExecPayment(db, a).Ok?
    ensures GateStep(db.gate, ExecPayment(db, a).value.gate, Consumes(Paying(a)), Spends(Paying(a)))
  {
    match a
    case Accept(c, terms) => AcceptGate(db, c, terms);
    case AcceptBy(ticket, update, c, terms) =>
      ManualGate(db, ticket, update, c, terms);
      LeaveSteps(db.gate, ticket, update, terms.now);
    case ResolveBy(ticket, update, review, status, now) =>
      ResolveGate(db, ticket, update, review, status, now);
      LeaveSteps(db.gate, ticket, update, now);
    case AskTopup(request, update) =>
      TopupGate(db, request, update);
      ReceiptSteps(db.gate, update);
    case PayFromWallet(user, o, key, update, terms) =>
      WalletGate(db, user, o, key, update, terms);
      ReceiptSteps(db.gate, update);
    case AdjustBy(ticket, update, user, amount, key, now) =>
      AdjustGate(db, ticket, update, user, amount, key, now);
      LeaveSteps(db.gate, ticket, update, now);
    case _ => BookkeepingGate(db, a);
  }

  lemma {:induction false} BackfillGate(db: Db, picked: seq<nat>, now: int, maxAttempts: nat)
    requires Backfill(db, picked, now, maxAttempts).Ok?
    ensures Backfill(db, picked, now, maxAttempts).value.0.gate == db.gate
    decreases |picked|
  {
    if picked == [] {
    } else {
      if Backlogged(db, picked[0]) {
        BackfillGate(Handoff(db, picked[0], now, maxAttempts).value.0, picked[1..], now, maxAttempts);
      } else {
        BackfillGate(db, picked[1..], now, maxAttempts);
      }
    }
  }

  lemma RetryGate(db: Db, ticket: Ticket, update: nat, j: nat, version: nat, now: int)
    requires RetryDelivery(db, ticket, update, j, version, now).Ok?
    ensures Leave(db.gate, ticket, update, now) == Ok(RetryDelivery(db, ticket, update, j, version, now).value.gate)
  {
  }

  lemma CompleteGate(db: Db, ticket: Ticket, update: nat, j: nat, version: nat, message: int, now: int)
    requires CompleteDelivery(db, ticket, update, j, version, message, now).Ok?
    ensures Leave(db.gate, ticket, update, now) ==
            Ok(CompleteDelivery(db, ticket, update, j, version, message, now).value.gate)
  {
  }

  lemma WorkerGate(db: Db, a: DeliveryAction)
    requires ExecDelivery(db, a).Ok?
    requires !a.RetryBy? && !a.CompleteBy?
    ensures ExecDelivery(db, a).value.gate == db.gate
  {
    if a.BackfillBatch? {
      BackfillGate(db, a.picked, a.now, a.maxAttempts);
    }
  }

  lemma ShippingSteps(db: Db, a: DeliveryAction)
    requires ExecDelivery(db, a).Ok?
    ensures GateStep(db.gate, ExecDelivery(db, a).value.gate, Consumes(Shipping(a)), Spends(Shipping(a)))
  {
    match a
    case RetryBy(ticket, update, j, version, now) =>
      RetryGate(db, ticket, update, j, version, now);
      LeaveSteps(db.gate, ticket, update, now);
    case CompleteBy(ticket, update, j, version, message, now) =>
      CompleteGate(db, ticket, update, j, version, message, now);
      LeaveSteps(db.gate, ticket, update, now);
    case _ => WorkerGate(db, a);
  }

  lemma SetupSteps(db: Db, a: SetupAction)
    requires ExecSetup(db, a).Ok?
    ensures GateStep(db.gate, ExecSetup(db, a).value.gate, Consumes(Setup(a)), Spends(Setup(a)))
  {
    if a.EditBy? {
      LeaveSteps(db.gate, a.ticket, a.update, a.now);
    }
  }

  lemma ExecSteps(db: Db, a: Action)
    requires Exec(db, a).Ok?
    ensures GateStep(db.gate, Exec(db, a).value.gate, Consumes(a), Spends(a))
  {
    match a
    case Setup(action) => SetupSteps(db, action);
    case AtGate(action) => AtGateSteps(db.gate, action);
    case Ordering(action) => OrderingSteps(db, action);
    case Paying(action) => PayingSteps(db, action);
    case Shipping(action) => ShippingSteps(db, action);
  }

  lemma {:induction false} RunForward(db: Db, actions: seq<Action>)
    ensures Forward(db.gate, Run(db, actions).gate)
    decreases |actions|
  {
    if actions == [] {
    } else {
      var next := Step(db, actions[0]);
      if Exec(db, actions[0]).Ok? {
        ExecSteps(db, actions[0]);
      }
      RunForward(next, actions[1..]);
      ForwardIsTransitive(db.gate, next.gate, Run(db, actions).gate);
    }
  }

  lemma {:induction false} RunSplits(db: Db, first: seq<Action>, second: seq<Action>)
    ensures Run(db, first + second) == Run(Run(db, first), second)
    decreases |first|
  {
    if first == [] {
      assert first + second == second;
    } else {
      assert (first + second)[0] == first[0] && (first + second)[1..] == first[1..] + second;
      RunSplits(Step(db, first[0]), first[1..], second);
    }
  }

  /** The k-th action of a run commits. */
  predicate Commits(db: Db, actions: seq<Action>, k: nat)
    requires k < |actions|
  {
    Exec(Run(db, actions[..k]), actions[k]).Ok?
  }

  /** Between two positions of a run the gate only moves forward. */
  lemma Between(db: Db, actions: seq<Action>, i: nat, k: nat)
    requires i < k < |actions|
    ensures Forward(Step(Run(db, actions[..i]), actions[i]).gate, Run(db, actions[..k]).gate)
  {
    assert actions[..k] == actions[..i] + ([actions[i]] + actions[i + 1..k]);
    RunSplits(db, actions[..i], [actions[i]] + actions[i + 1..k]);
    var middle := Run(db, actions[..i]);
    assert ([actions[i]] + actions[i + 1..k])[1..] == actions[i + 1..k];
    assert Run(middle, [actions[i]] + actions[i + 1..k]) == Run(Step(middle, actions[i]), actions[i + 1..k]);
    RunForward(Step(middle, actions[i]), actions[i + 1..k]);
  }

  /** Whatever failures, takeovers of stale processing and foreign failure marks
      happen in between, no update is consumed by two committed transactions. */
  lemma UpdateConsumedOnce(db: Db, actions: seq<Action>, i: nat, k: nat)
    requires i < k < |actions|
    requires Commits(db, actions, i) && Commits(db, actions, k)
    requires Consumes(actions[i]).Some?
    ensures Consumes(actions[k]) != Consumes(actions[i])
  {
    ExecSteps(Run(db, actions[..i]), actions[i]);
    ExecSteps(Run(db, actions[..k]), actions[k]);
    Between(db, actions, i, k);
  }

  /** No session version is spent by two committed transactions. */
  lemma SessionSpentOnce(db: Db, actions: seq<Action>, i: nat, k: nat)
    requires i < k < |actions|
    requires Commits(db, actions, i) && Commits(db, actions, k)
    requires Spends(actions[i]).Some? && Spends(actions[k]).Some?
    requires Spends(actions[i]).value.session == Spends(actions[k]).value.session
    ensures Spends(actions[i]).value.version < Spends(actions[k]).value.version
  {
    ExecSteps(Run(db, actions[..i]), actions[i]);
    ExecSteps(Run(db, actions[..k]), actions[k]);
    Between(db, actions, i, k);
  }

  /** A completed update stays a duplicate: no later claim of it succeeds. */
  lemma CompletedStaysDuplicate(db: Db, actions: seq<Action>, update: nat, now: int, staleBefore: int)
    requires Done(db.gate, update)
    ensures ClaimUpdate(Run(db, actions).gate, update, now, staleBefore) == (Run(db, actions).gate, DuplicateCompleted)
  {
    RunForward(db, actions);
  }
}
