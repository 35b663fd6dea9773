/** Payments, their allocations, review cases and inbound payment events, with
    the SQL statements that read and write them. */
module TillTable {
  import opened Results

  /** confirmed distinguishes the statuses 'confirmed' and 'review', the only
      two the program writes. */
  datatype Payment = Payment(
    order: Option<nat>, user: nat, provider: string, environment: string,
    transaction: string, reference: string, amount: int, confirmed: bool)

  datatype Target = OrderTarget(order: nat) | TopupTarget(topup: nat)

  datatype Allocation = Allocation(payment: nat, target: Target, amount: int)

  datatype ReviewStatus = Open | Held | Resolved

  datatype Review = Review(event: Option<nat>, payment: Option<nat>, target: Option<Target>, reason: string,
                           status: ReviewStatus)

  datatype EventStatus = EventReceived | EventProcessing | EventCompleted | EventInReview | EventFailed

  /** The bookkeeping columns of an inbound event; what it says stays with the
      worker that claimed it. startedAt counts while the event is processing. */
  datatype PaymentEvent = PaymentEvent(status: EventStatus, attempts: nat, maxAttempts: nat, nextAttemptAt: int,
                                       startedAt: int)

  datatype Till = Till(payments: seq<Payment>, allocations: seq<Allocation>, reviews: seq<Review>,
                       events: seq<PaymentEvent>)

  predicate SameTransaction(p: Payment, provider: string, environment: string, transaction: string) {
    p.provider == provider && p.environment == environment && p.transaction == transaction
  }

  /** GetPaymentByProviderTransaction. */
  function FindPayment(t: Till, provider: string, environment: string, transaction: string): (found: Option<nat>)
    ensures found.Some? ==>
            found.value < |t.payments| && SameTransaction(t.payments[found.value], provider, environment, transaction)
    ensures found.None? ==> forall p :: 0 <= p < |t.payments| ==>
            !SameTransaction(t.payments[p], provider, environment, transaction)
  {
    var wanted := (p: Payment) => SameTransaction(p, provider, environment, transaction);
    var found := Find(t.payments, wanted);
    assert found.None? ==> forall p :: 0 <= p < |t.payments| ==> !wanted(t.payments[p]);
    found
  }

  /** InsertPayment does nothing, and so returns no row, for a known transaction. */
  function InsertPayment(t: Till, payment: Payment): Result<Till> {
    if payment.amount <= 0 then Err(Constraint)
    else if FindPayment(t, payment.provider, payment.environment, payment.transaction).Some? then Err(NoRows)
    else Ok(t.(payments := t.payments + [payment]))
  }

  function FindAllocation(t: Till, payment: nat): (found: Option<nat>)
    ensures found.Some? ==> found.value < |t.allocations| && t.allocations[found.value].payment == payment
    ensures found.None? ==> forall a :: 0 <= a < |t.allocations| ==> t.allocations[a].payment != payment
  {
    var wanted := (a: Allocation) => a.payment == payment;
    var found := Find(t.allocations, wanted);
    assert found.None? ==> forall a :: 0 <= a < |t.allocations| ==> !wanted(t.allocations[a]);
    found
  }

  function FindTarget(t: Till, target: Target): (found: Option<nat>)
    ensures found.Some? ==> found.value < |t.allocations| && t.allocations[found.value].target == target
    ensures found.None? ==> forall a :: 0 <= a < |t.allocations| ==> t.allocations[a].target != target
  {
    var wanted := (a: Allocation) => a.target == target;
    var found := Find(t.allocations, wanted);
    assert found.None? ==> forall a :: 0 <= a < |t.allocations| ==> !wanted(t.allocations[a]);
    found
  }

  /** InsertPaymentAllocation: one allocation for each payment and each target. */
  function InsertAllocation(t: Till, allocation: Allocation): Result<Till> {
    if allocation.amount <= 0 || FindAllocation(t, allocation.payment).Some?
        || FindTarget(t, allocation.target).Some? then
      Err(Constraint)
    else
      Ok(t.(allocations := t.allocations + [allocation]))
  }

  function FindReviewOfEvent(t: Till, event: nat): (found: Option<nat>)
    ensures found.Some? ==> found.value < |t.reviews| && t.reviews[found.value].event == Some(event)
    ensures found.None? ==> forall r :: 0 <= r < |t.reviews| ==> t.reviews[r].event != Some(event)
  {
    var wanted := (r: Review) => r.event == Some(event);
    var found := Find(t.reviews, wanted);
    assert found.None? ==> forall r :: 0 <= r < |t.reviews| ==> !wanted(t.reviews[r]);
    found
  }

  /** InsertPaymentReviewCase: a second case for one event only replaces the
      reason of the first. */
  function InsertReview(t: Till, review: Review): Till {
    var known := if review.event.Some? then FindReviewOfEvent(t, review.event.value) else None;
    match known
    case Some(r) => t.(reviews := t.reviews[r := t.reviews[r].(reason := review.reason)])
    case None => t.(reviews := t.reviews + [review])
  }

  /** ResolvePaymentReview. */
  function ResolveReview(t: Till, review: nat, status: ReviewStatus): Result<Till> {
    if review < |t.reviews| && t.reviews[review].status in {Open, Held} then
      Ok(t.(reviews := t.reviews[review := t.reviews[review].(status := status)]))
    else Err(NoRows)
  }

  function WithStatus(t: Till, e: nat, status: EventStatus): Till
    requires e < |t.events|
  {
    t.(events := t.events[e := t.events[e].(status := status)])
  }

  /** InsertPaymentEvent of an event that is not known yet. */
  function InsertEvent(t: Till, maxAttempts: nat, now: int): Till {
    t.(events := t.events + [PaymentEvent(EventReceived, 0, maxAttempts, now, 0)])
  }

  /** What ClaimPaymentEvents selects: fresh events that are due and events whose
      processing went stale, as long as they have an attempt left. */
  predicate EventClaimable(event: PaymentEvent, now: int, staleBefore: int) {
    && event.attempts < event.maxAttempts
    && match event.status
       case EventReceived => event.nextAttemptAt <= now
       case EventProcessing => event.startedAt <= staleBefore
       case _ => false
  }

  function ClaimedEvent(event: PaymentEvent, now: int): PaymentEvent {
    event.(status := EventProcessing, attempts := event.attempts + 1, startedAt := now)
  }

  /** ClaimPaymentEvents: one statement, so each selected row is claimed once; picked
      rows that do not qualify are not selected. */
  function ClaimEvents(t: Till, picked: seq<nat>, now: int, staleBefore: int): Till {
    t.(events := seq(|t.events|, e requires 0 <= e < |t.events| =>
      if e in picked && EventClaimable(t.events[e], now, staleBefore) then ClaimedEvent(t.events[e], now)
        else t.events[e]))
  }

  /** SchedulePaymentEventRetry: an event without an attempt left has failed. */
  function RetryEvent(t: Till, e: nat, nextAttemptAt: int): Result<Till> {
    if e < |t.events| && t.events[e].status == EventProcessing then
      var event := t.events[e];
      Ok(t.(events := t.events[e := event.(
        status := if event.attempts >= event.maxAttempts then EventFailed else EventReceived,
        nextAttemptAt := nextAttemptAt)]))
    else Err(NoRows)
  }

  /** CompletePaymentEvent and CompleteIgnoredPaymentEvent. */
  function FinishEvent(t: Till, event: Option<nat>, status: EventStatus): Result<Till> {
    match event
    case None => Ok(t)
    case Some(e) =>
      if e < |t.events| && t.events[e].status == EventProcessing then Ok(WithStatus(t, e, status))
      else Err(NoRows)
  }

  /** MarkPaymentEventReviewedBeforeAcceptance. */
  function MarkEventReviewed(t: Till, e: nat): Result<Till> {
    if e < |t.events| && t.events[e].status in {EventReceived, EventProcessing} then Ok(WithStatus(t, e, EventInReview))
    else Err(NoRows)
  }

  // ---------- what every commit keeps ----------

  ghost predicate Allocated(t: Till, payment: nat) {
    exists a :: 0 <= a < |t.allocations| && t.allocations[a].payment == payment
  }

  ghost predicate UnderReview(t: Till, payment: nat) {
    exists r :: 0 <= r < |t.reviews| && t.reviews[r].payment == Some(payment)
  }

  ghost predicate AllocationOk(t: Till, a: nat)
    requires a < |t.allocations|
  {
    var allocation := t.allocations[a];
    && allocation.payment < |t.payments|
    && t.payments[allocation.payment].confirmed
    && t.payments[allocation.payment].amount == allocation.amount
    && allocation.amount > 0
  }

  ghost predicate TillOk(t: Till) {
    && (forall p, r :: 0 <= p < r < |t.payments| ==>
          !SameTransaction(t.payments[p], t.payments[r].provider, t.payments[r].environment, t.payments[r].transaction))
    && (forall a :: 0 <= a < |t.allocations| ==> AllocationOk(t, a))
    && (forall a, b :: 0 <= a < b < |t.allocations| ==>
          t.allocations[a].payment != t.allocations[b].payment && t.allocations[a].target != t.allocations[b].target)
    && (forall p :: 0 <= p < |t.payments| ==> Allocated(t, p) || UnderReview(t, p))
    && (forall r :: 0 <= r < |t.reviews| && t.reviews[r].event.Some? ==>
          t.reviews[r].event.value < |t.events|
              && t.events[t.reviews[r].event.value].status !in {EventReceived, EventProcessing})
    && (forall r :: 0 <= r < |t.reviews| && t.reviews[r].payment.Some? ==> t.reviews[r].payment.value < |t.payments|)
  }

  /** The two tills agree on payments and allocations. */
  predicate SameMoney(t: Till, t': Till) {
    t'.payments == t.payments && t'.allocations == t.allocations
  }

  /** Opening a case and closing its event keeps the till sound. An event that
      is still being processed has no case yet, so the case is a new row. */
  lemma ReviewKeepsTill(t: Till, review: Review)
    requires TillOk(t)
    requires review.payment.Some? ==> review.payment.value < |t.payments|
    requires review.event.Some? ==>
             review.event.value < |t.events| && t.events[review.event.value].status == EventProcessing
    ensures var t1 := InsertReview(t, review);
            && t1.reviews == t.reviews + [review]
            && FinishEvent(t1, review.event, EventInReview).Ok?
            && TillOk(FinishEvent(t1, review.event, EventInReview).value)
            && SameMoney(t, FinishEvent(t1, review.event, EventInReview).value)
  {
    var t1 := InsertReview(t, review);
    assert t1.reviews == t.reviews + [review];
    var t' := FinishEvent(t1, review.event, EventInReview).value;
    ReviewsGrow(t, t');
  }

  lemma ReviewsGrow(t: Till, t': Till)
    requires TillOk(t) && SameMoney(t, t')
    requires |t.reviews| <= |t'.reviews|
    requires forall r :: 0 <= r < |t.reviews| ==> t'.reviews[r].payment == t.reviews[r].payment
    ensures forall p :: 0 <= p < |t'.payments| ==> Allocated(t', p) || UnderReview(t', p)
    ensures forall a :: 0 <= a < |t'.allocations| ==> AllocationOk(t', a)
  {
    forall p | 0 <= p < |t'.payments|
      ensures Allocated(t', p) || UnderReview(t', p)
    {
      if Allocated(t, p) {
        var a :| 0 <= a < |t.allocations| && t.allocations[a].payment == p;
        assert t'.allocations[a].payment == p;
      } else {
        assert UnderReview(t, p);
        var r :| 0 <= r < |t.reviews| && t.reviews[r].payment == Some(p);
        assert t'.reviews[r].payment == Some(p);
      }
    }
    forall a | 0 <= a < |t'.allocations|
      ensures AllocationOk(t', a)
    {
      assert AllocationOk(t, a);
    }
  }

  /** Recording a payment together with its case. */
  lemma ReviewedPaymentKeepsTill(t: Till, payment: Payment, review: Review)
    requires TillOk(t)
    requires InsertPayment(t, payment).Ok?
    requires review.payment == Some(|t.payments|)
    requires review.event.Some? ==>
             review.event.value < |t.events| && t.events[review.event.value].status == EventProcessing
    ensures var t1 := InsertReview(InsertPayment(t, payment).value, review);
            && t1.reviews == t.reviews + [review]
            && FinishEvent(t1, review.event, EventInReview).Ok?
            && TillOk(FinishEvent(t1, review.event, EventInReview).value)
            && FinishEvent(t1, review.event, EventInReview).value.payments == t.payments + [payment]
            && FinishEvent(t1, review.event, EventInReview).value.allocations == t.allocations
  {
    var t1 := InsertReview(InsertPayment(t, payment).value, review);
    assert t1.reviews == t.reviews + [review];
    var t' := FinishEvent(t1, review.event, EventInReview).value;
    forall p | 0 <= p < |t'.payments|
      ensures Allocated(t', p) || UnderReview(t', p)
    {
      if p == |t.payments| {
        assert t'.reviews[|t.reviews|].payment == Some(p);
      } else {
        OutcomeKept(t, t', p);
      }
    }
    forall a | 0 <= a < |t'.allocations|
      ensures AllocationOk(t', a)
    {
      assert AllocationOk(t, a);
    }
  }

  lemma OutcomeKept(t: Till, t': Till, p: nat)
    requires Allocated(t, p) || UnderReview(t, p)
    requires t.allocations <= t'.allocations && t.reviews <= t'.reviews
    ensures Allocated(t', p) || UnderReview(t', p)
  {
    if Allocated(t, p) {
      var a :| 0 <= a < |t.allocations| && t.allocations[a].payment == p;
      assert t'.allocations[a].payment == p;
    } else {
      var r :| 0 <= r < |t.reviews| && t.reviews[r].payment == Some(p);
      assert t'.reviews[r].payment == Some(p);
    }
  }

  /** Recording a confirmed payment together with its allocation to a target
      that has none yet. */
  lemma AllocatedPaymentKeepsTill(t: Till, payment: Payment, target: Target, event: Option<nat>)
    requires TillOk(t)
    requires InsertPayment(t, payment).Ok? && payment.confirmed
    requires FindTarget(t, target).None?
    requires event.Some? ==> event.value < |t.events| && t.events[event.value].status == EventProcessing
    ensures var t1 := InsertAllocation(InsertPayment(t, payment).value,
                                       Allocation(|t.payments|, target, payment.amount));
            && t1.Ok?
            && FinishEvent(t1.value, event, EventCompleted).Ok?
            && var t' := FinishEvent(t1.value, event, EventCompleted).value;
            && TillOk(t')
            && t'.payments == t.payments + [payment]
            && t'.allocations == t.allocations + [Allocation(|t.payments|, target, payment.amount)]
  {
    forall a | 0 <= a < |t.allocations|
      ensures t.allocations[a].payment < |t.payments|
    {
      assert AllocationOk(t, a);
    }
    var paid := InsertPayment(t, payment).value;
    assert FindAllocation(paid, |t.payments|).None?;
    assert FindTarget(paid, target).None?;
    var t' := FinishEvent(InsertAllocation(paid, Allocation(|t.payments|, target, payment.amount)).value, event,
                          EventCompleted).value;
    forall p | 0 <= p < |t'.payments|
      ensures Allocated(t', p) || UnderReview(t', p)
    {
      if p == |t.payments| {
        assert t'.allocations[|t.allocations|].payment == p;
      } else {
        OutcomeKept(t, t', p);
      }
    }
    forall a | 0 <= a < |t'.allocations|
      ensures AllocationOk(t', a)
    {
      if a < |t.allocations| {
        assert AllocationOk(t, a);
      }
    }
  }

  /** Event bookkeeping that opens no case: an event may be received, claimed,
      retried, completed or given up. */
  lemma EventKeepsTill(t: Till, t': Till)
    requires TillOk(t) && SameMoney(t, t') && t'.reviews == t.reviews
    requires |t.events| <= |t'.events|
    requires forall e :: 0 <= e < |t.events| && t.events[e].status !in {EventReceived, EventProcessing} ==>
             t'.events[e] == t.events[e]
    ensures TillOk(t')
  {
    ReviewsGrow(t, t');
  }

  lemma ResolveKeepsTill(t: Till, review: nat, status: ReviewStatus)
    requires TillOk(t)
    requires ResolveReview(t, review, status).Ok?
    ensures TillOk(ResolveReview(t, review, status).value)
    ensures SameMoney(t, ResolveReview(t, review, status).value)
  {
    ReviewsGrow(t, ResolveReview(t, review, status).value);
  }
}
