/** The invariant holds in every state a run can commit. */
module ShopInvariant {
  import opened Domain
  import opened Agreement
  import opened Database
  import opened DeliveryInvariant
  import opened OrderInvariant
  import opened PaymentInvariant
  import opened SalesTable
  import opened Shop
  import opened TillTable

  /** Users, catalogue and banks may change as long as no user disappears or
      changes chat. */
  ghost predicate SameOrders(s: Sales, s': Sales) {
    && s'.orders == s.orders && s'.history == s.history
    && |s.users| <= |s'.users|
    && (forall u :: 0 <= u < |s.users| ==> s'.users[u].chat == s.users[u].chat)
    && (forall u :: 0 <= u < |s'.users| ==> s'.users[u].chat > 0)
  }

  lemma SetupMoves(db: Db, s': Sales)
    requires Inv(db)
    requires SameOrders(db.sales, s')
    ensures Inv(db.(sales := s'))
  {
    assert SalesOk(s') by {
      assert Holds(SalesSound, db);
      forall o | 0 <= o < |s'.orders|
        ensures OrderOk(s', o)
      {
        assert OrderOk(db.sales, o);
        assert HistoryOf(s', o) == HistoryOf(db.sales, o);
      }
    }
    assert JobsAgree(s', db.queue) by {
      assert Holds(JobsMatch, db);
      forall j | 0 <= j < |db.queue.jobs|
        ensures JobFits(s', db.queue, j)
      {
        assert JobFits(db.sales, db.queue, j);
      }
    }
    assert StockAgrees(s', db.stock) by {
      assert Holds(HoldingsMatch, db);
      forall o: nat
        ensures HoldsItsShare(s', db.stock, o)
      {
        assert HoldsItsShare(db.sales, db.stock, o);
      }
    }
    assert TillAgrees(s', db.till) by {
      assert Holds(PaymentsMatch, db);
      forall o | 0 <= o < |s'.orders|
        ensures PaidIffFulfilling(s', db.till, o)
      {
        assert PaidIffFulfilling(db.sales, db.till, o);
      }
      forall a | 0 <= a < |db.till.allocations|
        ensures AllocationFits(s', db.till, a)
      {
        assert AllocationFits(db.sales, db.till, a);
      }
    }
    assert DebitsAgree(s', db.till, db.wallets) by {
      assert Holds(DebitsMatch, db);
      DebitsKept(db.sales, s', db.till, db.till, db.wallets, db.wallets);
    }
    forall part
      ensures Holds(part, db.(sales := s'))
    {
      assert Holds(part, db);
    }
  }

  lemma SetupKeeps(db: Db, a: SetupAction)
    requires Inv(db)
    requires ExecSetup(db, a).Ok?
    ensures Inv(ExecSetup(db, a).value)
  {
    assert Holds(SalesSound, db);
    var db' := ExecSetup(db, a).value;
    SetupMoves(db, db'.sales);
    GateIsFree(db.(sales := db'.sales), db'.gate);
  }

  lemma OrderingKeeps(db: Db, a: OrderAction)
    requires Inv(db)
    requires ExecOrder(db, a).Ok?
    ensures Inv(ExecOrder(db, a).value)
  {
    match a
    case Create(request, update, terms, drawn) => CreateKeeps(db, request, update, terms, drawn);
    case CancelBy(user, o, version, update, now) => CancelKeeps(db, user, o, version, update, now);
    case ExpireBatch(picked, now) => ExpireKeeps(db, picked, now);
    case Release(o, reason) => ReleaseFreesNothing(db, o, reason, 0);
    case Recover(o, now) => ReleaseFreesNothing(db, o, ReleaseExpired, now);
    case ImportBy(ticket, update, product, unseen, now) => ImportKeeps(db, ticket, update, product, unseen, now);
    case SwitchBy(ticket, update, item, version, enable, now) =>
      SwitchKeeps(db, ticket, update, item, version, enable, now);
  }

  lemma PayingKeeps(db: Db, a: PaymentAction)
    requires Inv(db)
    requires ExecPayment(db, a).Ok?
    ensures Inv(ExecPayment(db, a).value)
  {
    match a
    case Receive(maxAttempts, now) => ReceiveEventKeeps(db, maxAttempts, now);
    case ClaimBatch(picked, now, staleBefore) => ClaimEventsKeeps(db, picked, now, staleBefore);
    case Reschedule(e, nextAttemptAt) => RetryEventKeeps(db, e, nextAttemptAt);
    case Ignore(e) => FinishEventKeeps(db, e, EventCompleted);
    case ReviewBefore(e, reason) => EventCaseKeeps(db, e, reason);
    case Conflicting(e, reason) => EventCaseKeeps(db, e, reason);
    case Accept(c, terms) => AcceptKeeps(db, c, terms);
    case AcceptBy(ticket, update, c, terms) => ManualAcceptKeeps(db, ticket, update, c, terms);
    case ResolveBy(ticket, update, review, status, now) => ResolveKeeps(db, ticket, update, review, status, now);
    case OpenWallet(user) => EnsureKeeps(db, user);
    case AskTopup(request, update) => CreateTopupKeeps(db, request, update);
    case PayFromWallet(user, o, key, update, terms) => PayOrderKeeps(db, user, o, key, update, terms);
    case AdjustBy(ticket, update, user, amount, key, now) => AdjustKeeps(db, ticket, update, user, amount, key, now);
  }

  lemma ShippingKeeps(db: Db, a: DeliveryAction)
    requires Inv(db)
    requires ExecDelivery(db, a).Ok?
    ensures Inv(ExecDelivery(db, a).value)
  {
    match a
    case BackfillBatch(picked, now, maxAttempts) => BackfillDoesNothing(db, picked, now, maxAttempts);
    case RecoverBatch(picked, now, staleBefore) => RecoverKeeps(db, picked, now, staleBefore);
    case ClaimJobBatch(picked, worker, now) => ClaimKeeps(db, picked, worker, now);
    case Begin(j, worker) => BeginKeeps(db, j, worker);
    case Succeed(j, worker, evidence) => SuccessKeeps(db, j, worker, evidence);
    case FailSend(j, worker, failure) => FailureKeeps(db, j, worker, failure);
    case FailBeforeSend(j, worker, retryable, code, nextAttemptAt) =>
      ClaimedFailureKeeps(db, j, worker, EarlyFailure(retryable, code, nextAttemptAt));
    case Preserve(j, message, reason) => PreserveKeeps(db, j, message, reason);
    case RetryBy(ticket, update, j, version, now) => RetryKeeps(db, ticket, update, j, version, now);
    case CompleteBy(ticket, update, j, version, message, now) =>
      CompleteKeeps(db, ticket, update, j, version, message, now);
  }

  /** Every committed transaction keeps the invariant. */
  lemma StepKeeps(db: Db, a: Action)
    requires Inv(db)
    ensures Inv(Step(db, a))
  {
    if Exec(db, a).Ok? {
      match a
      case Setup(action) => SetupKeeps(db, action);
      case AtGate(action) => GateIsFree(db, ExecGate(db.gate, action).value);
      case Ordering(action) => OrderingKeeps(db, action);
      case Paying(action) => PayingKeeps(db, action);
      case Shipping(action) => ShippingKeeps(db, action);
    }
  }

  lemma EmptyIsSound()
    ensures Inv(Empty())
  {
    var db := Empty();
    forall part
      ensures Holds(part, db)
    {
      forall o: nat
        ensures HoldsItsShare(db.sales, db.stock, o)
      {
      }
    }
  }

  /** The invariant holds after every run from a sound state. */
  lemma {:induction false} RunKeeps(db: Db, actions: seq<Action>)
    requires Inv(db)
    ensures Inv(Run(db, actions))
    decreases |actions|
  {
    if actions == [] {
    } else {
      StepKeeps(db, actions[0]);
      RunKeeps(Step(db, actions[0]), actions[1..]);
    }
  }

  /** Every state reachable from the empty tables is sound. */
  lemma ReachableIsSound(actions: seq<Action>)
    ensures Inv(Run(Empty(), actions))
  {
    EmptyIsSound();
    RunKeeps(Empty(), actions);
  }
}
