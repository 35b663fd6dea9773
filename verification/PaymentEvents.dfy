/** The worker that disposes of claimed payment events, one after another, while
    other transactions run, answers get lost and statements fail. */
module PaymentEvents {
  import opened Results
  import opened Agreement
  import Store = AppStore
  import opened Database
  import opened EventSettlement
  import opened PaymentAcceptance
  import opened PaymentReference
  import opened Shop
  import opened TillTable
  import DeliveryInvariant
  import RetryDelay
  import ShopInvariant

  // ---------- the backoff ----------

  const LARGEST_SHIFT := 10

  function Shift(attempts: int): nat {
    if attempts < 1 then 0 else if attempts - 1 > LARGEST_SHIFT then LARGEST_SHIFT else attempts - 1
  }

  /** A product of two's-complement 64-bit integers. */
  function Wrapped(product: int): int {
    (product + TWO_TO_THE_63) % (2 * TWO_TO_THE_63) - TWO_TO_THE_63
  }

  const TWO_TO_THE_63 := 0x8000_0000_0000_0000

  predicate InRange(value: int) {
    -TWO_TO_THE_63 <= value < TWO_TO_THE_63
  }

  function ExactDelay(base: int, attempts: int): int {
    base * RetryDelay.Power2(Shift(attempts))
  }

  function EventDelay(base: int, attempts: int): int {
    Wrapped(ExactDelay(base, attempts))
  }

  /** retryDelay. */
  method ComputeDelay(base: int, attempts: int) returns (delay: int)
    ensures delay == EventDelay(base, attempts)
  {
    var shift := attempts - 1;
    if shift < 0 {
      shift := 0;
    }
    if shift > LARGEST_SHIFT {
      shift := LARGEST_SHIFT;
    }
    delay := Wrapped(base * RetryDelay.Power2(shift));
  }

  /** The wait is exact if and only if it fits in 64 bits, as it does for every attempt
      if 1024 times the base does. */
  lemma DelayIsExact(base: int, attempts: int)
    ensures EventDelay(base, attempts) == ExactDelay(base, attempts) <==> InRange(ExactDelay(base, attempts))
    ensures InRange(1024 * base) ==> InRange(ExactDelay(base, attempts))
  {
    WrapIsExact(ExactDelay(base, attempts));
    PowerUpTo1024(Shift(attempts));
    ProductStays(base, RetryDelay.Power2(Shift(attempts)));
  }

  lemma WrapIsExact(product: int)
    ensures Wrapped(product) == product <==> InRange(product)
  {
  }

  lemma ProductStays(base: int, power: int)
    requires 1 <= power <= 1024
    ensures InRange(1024 * base) ==> InRange(base * power)
  {
    if base >= 0 {
      assert base * power <= base * 1024;
    } else {
      assert base * 1024 <= base * power;
    }
  }

  lemma PowerUpTo1024(shift: nat)
    requires shift <= LARGEST_SHIFT
    ensures 1 <= RetryDelay.Power2(shift) <= 1024
    ensures shift == LARGEST_SHIFT ==> RetryDelay.Power2(shift) == 1024
  {
    assert RetryDelay.Power2(5) == 32;
    assert RetryDelay.Power2(8) == 256;
    assert RetryDelay.Power2(LARGEST_SHIFT) == 1024;
    RetryDelay.PowerGrows(shift, LARGEST_SHIFT);
    RetryDelay.PowerGrows(0, shift);
  }

  /** The exact wait starts at the base, doubles with each attempt and stops at 1024
      times the base. */
  lemma DelayDoubles(base: int, attempts: int)
    ensures attempts <= 1 ==> ExactDelay(base, attempts) == base
    ensures 1 <= attempts <= LARGEST_SHIFT ==> ExactDelay(base, attempts + 1) == 2 * ExactDelay(base, attempts)
    ensures attempts > LARGEST_SHIFT ==> ExactDelay(base, attempts) == 1024 * base
  {
    PowerUpTo1024(LARGEST_SHIFT);
    if 1 <= attempts <= LARGEST_SHIFT {
      var power := RetryDelay.Power2(attempts - 1);
      assert RetryDelay.Power2(attempts) == 2 * power;
      assert base * (2 * power) == 2 * (base * power);
    }
  }

  // ---------- one pass ----------

  /** A claimed event. The bank is the one its destination account is mapped to, and
      attempts counts the claim it came with. */
  datatype WorkItem = WorkItem(
    event: nat, outbound: bool, content: string, size: nat, provider: string, transaction: string, reference: string,
    environment: string, destination: string, bank: Option<nat>, amount: int, currency: string, attempts: nat)

  datatype Job = Job(batchSize: int, retryBase: int, staleAfter: int, extractor: Option<Extractor>)

  predicate Runnable(job: Job) {
    job.batchSize > 0 && job.retryBase > 0 && job.staleAfter > 0
  }

  /** What surrounds one pass: what others commit before it and between its
      acceptance and its reschedule, the clock and the free items its acceptance
      finds, and what happens to its acceptance and to its other statement. An
      acceptor that refuses a command counts as an acceptance that fails. */
  datatype Conditions = Conditions(
    before: seq<Action>, terms: Terms, acceptance: Fault, between: seq<Action>, statement: Fault)

  /** What the text of the transfer says, or the stored reference without an extractor. */
  function ReferenceOf(job: Job, item: WorkItem): Extraction {
    if job.extractor.None? then Extraction.Exact(item.reference)
    else Reading(job.extractor.value, item.content, item.size)
  }

  function CommandFor(item: WorkItem, reference: string): PaymentCommand {
    PaymentCommand(Some(item.event), item.provider, item.transaction, reference, item.amount, item.currency,
                   item.environment, item.bank)
  }

  predicate Unmapped(item: WorkItem) {
    item.destination != "" && item.bank.None?
  }

  /** Why an event cannot be offered for acceptance. */
  function ReviewReason(reading: Extraction, item: WorkItem): (reason: Option<string>)
    ensures reason.None? <==> reading.Exact? && !Unmapped(item)
  {
    if reading == Multiple then Some("provider_ambiguous_reference")
    else if !reading.Exact? then Some("provider_unmatched_reference")
    else if Unmapped(item) then Some("provider_account_unmapped")
    else None
  }

  /** One transaction under a fault: its state, and whether the worker sees success. */
  function Attempt(db: Db, a: PaymentAction, fault: Fault): (Db, bool) {
    match ExecPayment(db, a)
    case Err(_) => (db, false)
    case Ok(next) =>
      match fault
      case Fine => (next, true)
      case Fails => (db, false)
      case Lost => (next, false)
  }

  predicate Offered(job: Job, item: WorkItem) {
    !item.outbound && ReviewReason(ReferenceOf(job, item), item).None?
  }

  function OfferStep(db: Db, job: Job, item: WorkItem, c: Conditions): (Db, bool)
    requires Offered(job, item)
  {
    Attempt(db, Accept(CommandFor(item, ReferenceOf(job, item).reference), c.terms), c.acceptance)
  }

  function Retry(job: Job, now: int, item: WorkItem): PaymentAction {
    Reschedule(item.event, now + EventDelay(job.retryBase, item.attempts))
  }

  /** One pass of the loop: the state it leaves, and whether the loop goes on. */
  function Pass(db: Db, job: Job, now: int, item: WorkItem, c: Conditions): (Db, bool) {
    var start := Run(db, c.before);
    var reason := ReviewReason(ReferenceOf(job, item), item);
    if item.outbound then Attempt(start, Ignore(item.event), c.statement)
    else if reason.Some? then Attempt(start, ReviewBefore(item.event, reason.value), c.statement)
    else AcceptOrRetry(start, job, now, item, c)
  }

  /** An event that is offered for acceptance, and rescheduled if that fails. */
  function AcceptOrRetry(start: Db, job: Job, now: int, item: WorkItem, c: Conditions): (Db, bool)
    requires Offered(job, item)
  {
    var (after, accepted) := OfferStep(start, job, item, c);
    if accepted then (after, true) else Attempt(Run(after, c.between), Retry(job, now, item), c.statement)
  }

  /** The loop: it ends with the first pass that fails. */
  function Batch(db: Db, job: Job, now: int, items: seq<WorkItem>, cs: seq<Conditions>): (Db, bool)
    requires |cs| == |items|
    decreases |items|
  {
    if items == [] then (db, true)
    else
      var (next, done) := Pass(db, job, now, items[0], cs[0]);
      if done then Batch(next, job, now, items[1..], cs[1..]) else (next, false)
  }

  // ---------- when a pass succeeds ----------

  /** A pass succeeds if and only if the guard of its statement holds when it runs
      and no fault hits it; an event offered for acceptance has two chances. */
  lemma PassSucceeds(db: Db, job: Job, now: int, item: WorkItem, c: Conditions)
    ensures var start := Run(db, c.before);
            Pass(db, job, now, item, c).1 <==>
            if item.outbound then c.statement == Fine && IsProcessing(start.till, item.event)
            else if !Offered(job, item) then
              c.statement == Fine && item.event < |start.till.events|
                  && start.till.events[item.event].status != EventFailed
            else
              || OfferStep(start, job, item, c).1
              || (c.statement == Fine
                  && IsProcessing(Run(OfferStep(start, job, item, c).0, c.between).till, item.event))
  {
    var start := Run(db, c.before);
    if item.outbound {
      StatementGuards(start, Ignore(item.event));
    } else if !Offered(job, item) {
      StatementGuards(start, ReviewBefore(item.event, ReviewReason(ReferenceOf(job, item), item).value));
    } else {
      StatementGuards(Run(OfferStep(start, job, item, c).0, c.between), Retry(job, now, item));
    }
  }

  lemma StatementGuards(db: Db, a: PaymentAction)
    requires a.Ignore? || a.ReviewBefore? || a.Reschedule?
    ensures ExecPayment(db, a).Ok? <==>
            if a.ReviewBefore? then a.e < |db.till.events| && db.till.events[a.e].status != EventFailed
            else IsProcessing(db.till, a.e)
    ensures ExecPayment(db, a).Ok? ==>
              var t' := ExecPayment(db, a).value.till;
              && OnlyEvent(db.till, t', a.e)
              && match a
                 case Ignore(e) => t'.events[e].status == EventCompleted
                 case ReviewBefore(e, _) =>
                   t'.events[e].status == if db.till.events[e].status == EventCompleted then EventCompleted
                     else EventInReview
                 case Reschedule(e, next) =>
                   && t'.events[e].nextAttemptAt == next
                   && t'.events[e].status ==
                      if db.till.events[e].attempts >= db.till.events[e].maxAttempts then EventFailed else EventReceived
                 case _ => true
  {
  }

  /** Why the text of an event cannot be offered: it has no reference, or more than one,
      or the money went to an account without a bank. */
  function WhyNot(reading: Extraction, item: WorkItem): Option<string> {
    match reading
    case Multiple => Some("provider_ambiguous_reference")
    case Missing => Some("provider_unmatched_reference")
    case Invalid => Some("provider_unmatched_reference")
    case Exact(_) =>
      if item.destination != "" && item.bank.None? then Some("provider_account_unmapped") else None
  }

  /** What a pass does with an event when nothing fails: an outgoing transfer is ignored,
      and one that cannot be offered is put under review for that reason. */
  lemma PassIsExact(db: Db, job: Job, now: int, item: WorkItem, c: Conditions)
    requires c.statement == Fine
    requires item.outbound || WhyNot(ReferenceOf(job, item), item).Some?
    ensures Pass(db, job, now, item, c).0 ==
            Step(Run(db, c.before), Paying(
              if item.outbound then Ignore(item.event)
              else ReviewBefore(item.event, WhyNot(ReferenceOf(job, item), item).value)))
  {
    WhyNotIsExact(job, item);
    CalmAttempt(Run(db, c.before),
                if item.outbound then Ignore(item.event)
                else ReviewBefore(item.event, WhyNot(ReferenceOf(job, item), item).value));
  }

  /** Any other is offered under the reference that was read. */
  lemma PassIsOffer(db: Db, job: Job, now: int, item: WorkItem, c: Conditions)
    requires Offered(job, item)
    ensures Pass(db, job, now, item, c) == AcceptOrRetry(Run(db, c.before), job, now, item, c)
  {
  }

  /** An offer that is refused waits. */
  lemma OfferIsExact(start: Db, job: Job, now: int, item: WorkItem, c: Conditions)
    requires Offered(job, item) && c.acceptance == Fine && c.statement == Fine
    ensures var offer := Paying(Accept(CommandFor(item, ReferenceOf(job, item).reference), c.terms));
            AcceptOrRetry(start, job, now, item, c).0 ==
            if Exec(start, offer).Ok? then Step(start, offer)
            else Step(Run(start, c.between), Paying(Retry(job, now, item)))
  {
    CalmAttempt(start, Accept(CommandFor(item, ReferenceOf(job, item).reference), c.terms));
    CalmAttempt(Run(start, c.between), Retry(job, now, item));
  }

  /** The reference is the one the text names, or the stored one without an extractor;
      the offer carries it with what the event says, and the bank of its destination. */
  lemma WhyNotIsExact(job: Job, item: WorkItem)
    ensures ReviewReason(ReferenceOf(job, item), item) == WhyNot(ReferenceOf(job, item), item)
    ensures Offered(job, item) <==> !item.outbound && WhyNot(ReferenceOf(job, item), item).None?
    ensures ReferenceOf(job, item) == if job.extractor.None? then Extraction.Exact(item.reference)
                                      else Reading(job.extractor.value, item.content, item.size)
    ensures forall reference :: CommandFor(item, reference) ==
              PaymentCommand(Some(item.event), item.provider, item.transaction, reference, item.amount,
                             item.currency, item.environment, item.bank)
  {
  }

  lemma CalmAttempt(db: Db, a: PaymentAction)
    ensures Attempt(db, a, Fine) == (Step(db, Paying(a)), Exec(db, Paying(a)).Ok?)
  {
  }


  // ---------- settled events ----------

  lemma PayingIsForward(db: Db, a: PaymentAction)
    requires ExecPayment(db, a).Ok?
    ensures EventsForward(db.till, ExecPayment(db, a).value.till)
  {
    match a
    case Accept(c, terms) => AcceptanceSettles(db, c, terms);
    case AcceptBy(ticket, update, c, terms) => ManualIsForward(db, ticket, update, c, terms);
    case PayFromWallet(user, o, key, update, terms) => WalletKeepsEvents(db, user, o, key, update, terms);
    case _ =>
  }

  lemma StepIsForward(db: Db, a: Action)
    requires Inv(db)
    ensures EventsForward(db.till, Step(db, a).till)
  {
    if Exec(db, a).Ok? {
      match a
      case Ordering(action) => OrderingKeepsTill(db, action);
      case Paying(action) => PayingIsForward(db, action);
      case Shipping(action) => ShippingKeepsTill(db, action);
      case _ =>
    }
  }

  lemma OrderingKeepsTill(db: Db, a: OrderAction)
    requires ExecOrder(db, a).Ok?
    ensures ExecOrder(db, a).value.till == db.till
  {
  }

  lemma ShippingKeepsTill(db: Db, a: DeliveryAction)
    requires Inv(db)
    requires ExecDelivery(db, a).Ok?
    ensures ExecDelivery(db, a).value.till == db.till
  {
    if a.BackfillBatch? {
      DeliveryInvariant.BackfillDoesNothing(db, a.picked, a.now, a.maxAttempts);
    }
  }

  /** A settled event stays as it is, whatever runs. */
  lemma {:induction false} RunIsForward(db: Db, actions: seq<Action>)
    requires Inv(db)
    ensures EventsForward(db.till, Run(db, actions).till)
    decreases |actions|
  {
    if actions == [] {
    } else {
      var next := Step(db, actions[0]);
      StepIsForward(db, actions[0]);
      ShopInvariant.StepKeeps(db, actions[0]);
      RunIsForward(next, actions[1..]);
      forall e | 0 <= e < |db.till.events| && Settled(db.till.events[e])
        ensures Run(db, actions).till.events[e] == db.till.events[e]
      {
        assert next.till.events[e] == db.till.events[e];
      }
    }
  }

  // ---------- what a pass leaves ----------

  /** The row of an event after a pass that succeeded. */
  predicate Disposed(job: Job, item: WorkItem, event: PaymentEvent) {
    if item.outbound then event.status == EventCompleted
    else if !Offered(job, item) then event.status in {EventInReview, EventCompleted}
    else
      || event.status in {EventCompleted, EventInReview}
      || event.status == if event.attempts >= event.maxAttempts then EventFailed else EventReceived
  }

  /** A pass that succeeds has disposed of its event, and a rescheduled one waits for
      its backoff. */
  lemma SuccessDisposes(db: Db, job: Job, now: int, item: WorkItem, c: Conditions)
    requires Pass(db, job, now, item, c).1
    ensures var t' := Pass(db, job, now, item, c).0.till;
            && item.event < |t'.events| && Disposed(job, item, t'.events[item.event])
            && (Offered(job, item) && !Settled(t'.events[item.event]) ==>
                  t'.events[item.event].nextAttemptAt == now + EventDelay(job.retryBase, item.attempts))
  {
    var start := Run(db, c.before);
    var reason := ReviewReason(ReferenceOf(job, item), item);
    if item.outbound {
      StatementGuards(start, Ignore(item.event));
    } else if reason.Some? {
      StatementGuards(start, ReviewBefore(item.event, reason.value));
    } else if OfferStep(start, job, item, c).1 {
      AcceptanceSettles(start, CommandFor(item, ReferenceOf(job, item).reference), c.terms);
    } else {
      StatementGuards(Run(OfferStep(start, job, item, c).0, c.between), Retry(job, now, item));
    }
  }

  /** An acceptance that commits but whose answer is lost always ends the loop: its
      event is settled for good, so no reschedule can find it. */
  lemma LostAnswerFails(db: Db, job: Job, now: int, item: WorkItem, c: Conditions)
    requires Inv(db) && Offered(job, item) && c.acceptance == Lost
    requires AcceptPayment(Run(db, c.before), CommandFor(item, ReferenceOf(job, item).reference), c.terms).Ok?
    ensures !Pass(db, job, now, item, c).1
    ensures var t' := Pass(db, job, now, item, c).0.till;
            item.event < |t'.events| && t'.events[item.event].status in {EventCompleted, EventInReview}
  {
    ShopInvariant.RunKeeps(db, c.before);
    LostAnswerSettles(Run(db, c.before), job, item, c);
    SettledOfferFails(db, job, now, item, c);
  }

  lemma SettledOfferFails(db: Db, job: Job, now: int, item: WorkItem, c: Conditions)
    requires Offered(job, item)
    requires var (after, accepted) := OfferStep(Run(db, c.before), job, item, c);
             && !accepted && Inv(after)
             && item.event < |after.till.events|
             && after.till.events[item.event].status in {EventCompleted, EventInReview}
    ensures !Pass(db, job, now, item, c).1
    ensures var t' := Pass(db, job, now, item, c).0.till;
            item.event < |t'.events| && t'.events[item.event].status in {EventCompleted, EventInReview}
  {
    var after := OfferStep(Run(db, c.before), job, item, c).0;
    RefusedOfferIsRescheduled(db, job, now, item, c);
    SettledStays(after, c.between, item.event);
    SettledIsNotRescheduled(Run(after, c.between), Retry(job, now, item), c.statement);
  }

  lemma RefusedOfferIsRescheduled(db: Db, job: Job, now: int, item: WorkItem, c: Conditions)
    requires Offered(job, item) && !OfferStep(Run(db, c.before), job, item, c).1
    ensures Pass(db, job, now, item, c) ==
            Attempt(Run(OfferStep(Run(db, c.before), job, item, c).0, c.between), Retry(job, now, item), c.statement)
  {
  }

  lemma SettledStays(db: Db, actions: seq<Action>, e: nat)
    requires Inv(db) && e < |db.till.events| && Settled(db.till.events[e])
    ensures e < |Run(db, actions).till.events| && Run(db, actions).till.events[e] == db.till.events[e]
  {
    RunIsForward(db, actions);
  }

  lemma SettledIsNotRescheduled(db: Db, a: PaymentAction, fault: Fault)
    requires a.Reschedule? && a.e < |db.till.events| && Settled(db.till.events[a.e])
    ensures Attempt(db, a, fault) == (db, false)
  {
    StatementGuards(db, a);
  }

  lemma LostAnswerSettles(start: Db, job: Job, item: WorkItem, c: Conditions)
    requires Inv(start) && Offered(job, item) && c.acceptance == Lost
    requires AcceptPayment(start, CommandFor(item, ReferenceOf(job, item).reference), c.terms).Ok?
    ensures var after := OfferStep(start, job, item, c);
            && !after.1 && Inv(after.0)
            && item.event < |after.0.till.events|
            && after.0.till.events[item.event].status in {EventCompleted, EventInReview}
  {
    AcceptanceSettles(start, CommandFor(item, ReferenceOf(job, item).reference), c.terms);
    ShopInvariant.StepKeeps(start, Paying(Accept(CommandFor(item, ReferenceOf(job, item).reference), c.terms)));
  }

  // ---------- a whole batch ----------

  ghost predicate Distinct(items: seq<WorkItem>) {
    forall i, k :: 0 <= i < k < |items| ==> items[i].event != items[k].event
  }

  /** The first pass that fails ends the run: its state is the state that pass left,
      and the later events are never looked at. */
  lemma {:induction false} FirstFailureEnds(db: Db, job: Job, now: int, items: seq<WorkItem>, cs: seq<Conditions>,
                                            k: nat)
    requires k < |items| == |cs|
    requires Batch(db, job, now, items[..k], cs[..k]).1
    requires !Pass(Batch(db, job, now, items[..k], cs[..k]).0, job, now, items[k], cs[k]).1
    ensures Batch(db, job, now, items, cs) ==
            (Pass(Batch(db, job, now, items[..k], cs[..k]).0, job, now, items[k], cs[k]).0, false)
    decreases k
  {
    if k == 0 {
      assert items[..0] == [] && cs[..0] == [];
    } else {
      var next := Pass(db, job, now, items[0], cs[0]).0;
      assert items[..k][0] == items[0] && cs[..k][0] == cs[0];
      assert items[..k][1..] == items[1..][..k - 1] && cs[..k][1..] == cs[1..][..k - 1];
      FirstFailureEnds(next, job, now, items[1..], cs[1..], k - 1);
    }
  }

  /** The run gets as far as its k-th pass, and that pass succeeds too. */
  predicate PassDone(db: Db, job: Job, now: int, items: seq<WorkItem>, cs: seq<Conditions>, k: nat)
    requires k < |items| == |cs|
  {
    var (reached, done) := Batch(db, job, now, items[..k], cs[..k]);
    done && Pass(reached, job, now, items[k], cs[k]).1
  }

  /** A run succeeds if and only if every one of its passes does. */
  lemma {:induction false} BatchSucceeds(db: Db, job: Job, now: int, items: seq<WorkItem>, cs: seq<Conditions>)
    requires |cs| == |items|
    ensures Batch(db, job, now, items, cs).1 <==> forall k :: 0 <= k < |items| ==> PassDone(db, job, now, items, cs, k)
    decreases |items|
  {
    if items == [] {
    } else {
      var n := |items| - 1;
      BatchSucceeds(db, job, now, items[..n], cs[..n]);
      forall k | 0 <= k < n
        ensures PassDone(db, job, now, items[..n], cs[..n], k) == PassDone(db, job, now, items, cs, k)
      {
        assert items[..n][..k] == items[..k] && cs[..n][..k] == cs[..k];
      }
      BatchAppends(db, job, now, items[..n], cs[..n], items[n], cs[n]);
      assert items[..n] + [items[n]] == items && cs[..n] + [cs[n]] == cs;
      assert Batch(db, job, now, items, cs).1 == PassDone(db, job, now, items, cs, n);
      if PassDone(db, job, now, items, cs, n) {
        forall k | 0 <= k < |items|
          ensures PassDone(db, job, now, items, cs, k)
        {
          if k < n {
            assert PassDone(db, job, now, items[..n], cs[..n], k);
          }
        }
      }
    }
  }

  lemma {:induction false} BatchAppends(db: Db, job: Job, now: int, items: seq<WorkItem>, cs: seq<Conditions>,
                                        item: WorkItem, c: Conditions)
    requires |cs| == |items|
    ensures var (reached, done) := Batch(db, job, now, items, cs);
            Batch(db, job, now, items + [item], cs + [c]) == if done then Pass(reached, job, now, item, c)
              else (reached, false)
    decreases |items|
  {
    if items == [] {
      assert [item][1..] == [] && [c][1..] == [];
    } else {
      assert (items + [item])[1..] == items[1..] + [item] && (cs + [c])[1..] == cs[1..] + [c];
      if Pass(db, job, now, items[0], cs[0]).1 {
        BatchAppends(Pass(db, job, now, items[0], cs[0]).0, job, now, items[1..], cs[1..], item, c);
      }
    }
  }

  /** Nobody else commits during the pass. */
  predicate Alone(c: Conditions) {
    c.before == [] && c.between == []
  }

  lemma AttemptTouchesOne(db: Db, a: PaymentAction, fault: Fault, e: nat)
    requires ((a.Ignore? || a.ReviewBefore? || a.Reschedule?) && a.e == e) || (a.Accept? && a.c.event == Some(e))
    ensures OnlyEvent(db.till, Attempt(db, a, fault).0.till, e)
  {
    if ExecPayment(db, a).Ok? {
      if a.Accept? {
        AcceptanceSettles(db, a.c, a.terms);
      } else {
        StatementGuards(db, a);
      }
    }
  }

  lemma PassTouchesOne(db: Db, job: Job, now: int, item: WorkItem, c: Conditions)
    requires Alone(c)
    ensures OnlyEvent(db.till, Pass(db, job, now, item, c).0.till, item.event)
  {
    var reason := ReviewReason(ReferenceOf(job, item), item);
    if item.outbound {
      AttemptTouchesOne(db, Ignore(item.event), c.statement, item.event);
    } else if reason.Some? {
      AttemptTouchesOne(db, ReviewBefore(item.event, reason.value), c.statement, item.event);
    } else {
      var a := Accept(CommandFor(item, ReferenceOf(job, item).reference), c.terms);
      AttemptTouchesOne(db, a, c.acceptance, item.event);
      AttemptTouchesOne(OfferStep(db, job, item, c).0, Retry(job, now, item), c.statement, item.event);
    }
  }

  /** A run touches only the events it was given. */
  lemma {:induction false} BatchTouchesOwn(db: Db, job: Job, now: int, items: seq<WorkItem>, cs: seq<Conditions>)
    requires |cs| == |items| && forall k :: 0 <= k < |cs| ==> Alone(cs[k])
    ensures var t' := Batch(db, job, now, items, cs).0.till;
            && |t'.events| == |db.till.events|
            && forall e :: 0 <= e < |t'.events| && (forall k :: 0 <= k < |items| ==> items[k].event != e) ==>
                 t'.events[e] == db.till.events[e]
    decreases |items|
  {
    if items == [] {
    } else {
      PassTouchesOne(db, job, now, items[0], cs[0]);
      assert items == [items[0]] + items[1..];
      if Pass(db, job, now, items[0], cs[0]).1 {
        BatchTouchesOwn(Pass(db, job, now, items[0], cs[0]).0, job, now, items[1..], cs[1..]);
      }
    }
  }

  /** After the first pass that fails, this worker has left every later event as its
      claim made it. */
  lemma LaterEventsUntouched(db: Db, job: Job, now: int, items: seq<WorkItem>, cs: seq<Conditions>, k: nat)
    requires k < |items| == |cs| && Distinct(items) && forall i :: 0 <= i < |cs| ==> Alone(cs[i])
    requires Batch(db, job, now, items[..k], cs[..k]).1
    requires !Pass(Batch(db, job, now, items[..k], cs[..k]).0, job, now, items[k], cs[k]).1
    ensures var t' := Batch(db, job, now, items, cs).0.till;
            && |t'.events| == |db.till.events|
            && forall i :: k < i < |items| && items[i].event < |t'.events| ==>
                 t'.events[items[i].event] == db.till.events[items[i].event]
  {
    FirstFailureEnds(db, job, now, items, cs, k);
    BatchTouchesOwn(db, job, now, items[..k], cs[..k]);
    PassTouchesOne(Batch(db, job, now, items[..k], cs[..k]).0, job, now, items[k], cs[k]);
  }

  /** No other transaction, no lost answer and no failing statement; an acceptance
      may still be refused. */
  predicate Calm(c: Conditions) {
    Alone(c) && c.statement == Fine && c.acceptance != Lost
  }

  /** The events still to be disposed of, all of them being processed. */
  ghost predicate Waiting(t: Till, items: seq<WorkItem>) {
    Distinct(items) && forall k :: 0 <= k < |items| ==> IsProcessing(t, items[k].event)
  }

  lemma WaitingShrinks(t: Till, items: seq<WorkItem>, t': Till)
    requires items != [] && Waiting(t, items) && OnlyEvent(t, t', items[0].event)
    ensures Waiting(t', items[1..])
  {
  }

  lemma CalmPassDisposes(db: Db, job: Job, now: int, item: WorkItem, c: Conditions)
    requires Calm(c) && IsProcessing(db.till, item.event)
    ensures Pass(db, job, now, item, c).1
    ensures var t' := Pass(db, job, now, item, c).0.till;
            OnlyEvent(db.till, t', item.event) && Disposed(job, item, t'.events[item.event])
  {
    PassSucceeds(db, job, now, item, c);
    if Offered(job, item) && !OfferStep(db, job, item, c).1 {
      assert OfferStep(db, job, item, c).0 == db;
    }
    SuccessDisposes(db, job, now, item, c);
    PassTouchesOne(db, job, now, item, c);
  }

  /** The passes after the first leave its event alone. */
  lemma FirstStays(db: Db, job: Job, now: int, items: seq<WorkItem>, cs: seq<Conditions>)
    requires |cs| == |items| > 0 && (forall k :: 0 <= k < |cs| ==> Calm(cs[k])) && Waiting(db.till, items)
    ensures var (t1, t') := (Pass(db, job, now, items[0], cs[0]).0.till, Batch(db, job, now, items, cs).0.till);
            && |t1.events| == |t'.events| == |db.till.events|
            && t'.events[items[0].event] == t1.events[items[0].event]
  {
    CalmPassDisposes(db, job, now, items[0], cs[0]);
    BatchTouchesOwn(Pass(db, job, now, items[0], cs[0]).0, job, now, items[1..], cs[1..]);
  }

  /** In calm conditions no event blocks the others, however many acceptances are
      refused: every claimed event is disposed of, and no other event moves. */
  lemma {:induction false} NoEventBlocks(db: Db, job: Job, now: int, items: seq<WorkItem>, cs: seq<Conditions>)
    requires |cs| == |items| && (forall k :: 0 <= k < |cs| ==> Calm(cs[k])) && Waiting(db.till, items)
    ensures Batch(db, job, now, items, cs).1
    ensures var t' := Batch(db, job, now, items, cs).0.till;
            && |t'.events| == |db.till.events|
            && forall k :: 0 <= k < |items| ==> Disposed(job, items[k], t'.events[items[k].event])
    decreases |items|
  {
    if items == [] {
    } else {
      var next := Pass(db, job, now, items[0], cs[0]).0;
      CalmPassDisposes(db, job, now, items[0], cs[0]);
      WaitingShrinks(db.till, items, next.till);
      NoEventBlocks(next, job, now, items[1..], cs[1..]);
      FirstStays(db, job, now, items, cs);
      assert items == [items[0]] + items[1..];
    }
  }

  lemma AttemptKeeps(db: Db, a: PaymentAction, fault: Fault)
    requires Inv(db)
    ensures Inv(Attempt(db, a, fault).0)
  {
    ShopInvariant.StepKeeps(db, Paying(a));
  }

  lemma PassKeeps(db: Db, job: Job, now: int, item: WorkItem, c: Conditions)
    requires Inv(db)
    ensures Inv(Pass(db, job, now, item, c).0)
  {
    var start := Run(db, c.before);
    ShopInvariant.RunKeeps(db, c.before);
    var reason := ReviewReason(ReferenceOf(job, item), item);
    if item.outbound {
      AttemptKeeps(start, Ignore(item.event), c.statement);
    } else if reason.Some? {
      AttemptKeeps(start, ReviewBefore(item.event, reason.value), c.statement);
    } else {
      AttemptKeeps(start, Accept(CommandFor(item, ReferenceOf(job, item).reference), c.terms), c.acceptance);
      var after := OfferStep(start, job, item, c).0;
      ShopInvariant.RunKeeps(after, c.between);
      AttemptKeeps(Run(after, c.between), Retry(job, now, item), c.statement);
    }
  }

  /** Whatever happens around it, a batch keeps everything every run keeps. */
  lemma {:induction false} BatchKeeps(db: Db, job: Job, now: int, items: seq<WorkItem>, cs: seq<Conditions>)
    requires |cs| == |items| && Inv(db)
    ensures Inv(Batch(db, job, now, items, cs).0)
    decreases |items|
  {
    if items == [] {
    } else {
      PassKeeps(db, job, now, items[0], cs[0]);
      if Pass(db, job, now, items[0], cs[0]).1 {
        BatchKeeps(Pass(db, job, now, items[0], cs[0]).0, job, now, items[1..], cs[1..]);
      }
    }
  }

  // ---------- the loop ----------

  /** What other transactions commit meanwhile. */
  method OthersRun(store: Store.AppStore, actions: seq<Action>)
    modifies store
    ensures store.State() == Run(old(store.State()), actions)
  {
    store.Rollback(Run(store.State(), actions));
  }

  method ReadReference(job: Job, item: WorkItem) returns (reading: Extraction)
    requires job.extractor.Some? ==> Usable(job.extractor.value)
    requires Sized(item.content, item.size)
    ensures reading == ReferenceOf(job, item)
  {
    if job.extractor.None? {
      return Extraction.Exact(item.reference);
    }
    reading := Extract(job.extractor.value, item.content, item.size);
  }

  method CompleteIgnored(store: Store.AppStore, e: nat, fault: Fault) returns (done: bool)
    modifies store
    ensures (store.State(), done) == Attempt(old(store.State()), Ignore(e), fault)
  {
    if fault == Fails {
      return false;
    }
    var r := store.SettleEvent(e, EventCompleted);
    done := r.Ok? && fault == Fine;
  }

  method Review(store: Store.AppStore, e: nat, reason: string, fault: Fault) returns (done: bool)
    modifies store
    ensures (store.State(), done) == Attempt(old(store.State()), ReviewBefore(e, reason), fault)
  {
    if fault == Fails {
      return false;
    }
    var r := store.ReviewPaymentEvent(e, reason);
    done := r.Ok? && fault == Fine;
  }

  method TryAccept(store: Store.AppStore, command: PaymentCommand, terms: Terms, fault: Fault) returns (done: bool)
    modifies store
    ensures (store.State(), done) == Attempt(old(store.State()), Accept(command, terms), fault)
  {
    if fault == Fails {
      return false;
    }
    var r := store.AcceptPayment(command, terms);
    done := r.Ok? && fault == Fine;
  }

  method Schedule(store: Store.AppStore, e: nat, nextAttemptAt: int, fault: Fault) returns (done: bool)
    modifies store
    ensures (store.State(), done) == Attempt(old(store.State()), Reschedule(e, nextAttemptAt), fault)
  {
    if fault == Fails {
      return false;
    }
    var r := store.SchedulePaymentEventRetry(e, nextAttemptAt);
    done := r.Ok? && fault == Fine;
  }

  /** One pass of the loop, with what happens around it. */
  method DisposeOne(store: Store.AppStore, job: Job, now: int, item: WorkItem, c: Conditions) returns (done: bool)
    requires job.extractor.Some? ==> Usable(job.extractor.value)
    requires Sized(item.content, item.size)
    modifies store
    ensures (store.State(), done) == Pass(old(store.State()), job, now, item, c)
  {
    OthersRun(store, c.before);
    if item.outbound {
      done := CompleteIgnored(store, item.event, c.statement);
      return;
    }
    var reading := ReadReference(job, item);
    var reason := ReviewReason(reading, item);
    if reason.Some? {
      done := Review(store, item.event, reason.value, c.statement);
      return;
    }
    done := OfferOrSchedule(store, job, now, item, reading, c);
  }

  method OfferOrSchedule(store: Store.AppStore, job: Job, now: int, item: WorkItem, reading: Extraction, c: Conditions)
    returns (done: bool)
    requires Offered(job, item) && reading == ReferenceOf(job, item)
    modifies store
    ensures (store.State(), done) == AcceptOrRetry(old(store.State()), job, now, item, c)
  {
    done := TryAccept(store, CommandFor(item, reading.reference), c.terms, c.acceptance);
    if done {
      return;
    }
    done := ScheduleRetry(store, job, now, item, c);
  }

  method ScheduleRetry(store: Store.AppStore, job: Job, now: int, item: WorkItem, c: Conditions) returns (done: bool)
    modifies store
    ensures (store.State(), done) == Attempt(Run(old(store.State()), c.between), Retry(job, now, item), c.statement)
  {
    OthersRun(store, c.between);
    var delay := ComputeDelay(job.retryBase, item.attempts);
    done := Schedule(store, item.event, now + delay, c.statement);
  }

  function Events(items: seq<WorkItem>): seq<nat> {
    seq(|items|, k requires 0 <= k < |items| => items[k].event)
  }

  /** The store after the claim. */
  function Claimed(db: Db, job: Job, now: int, items: seq<WorkItem>): Db {
    db.(till := ClaimEvents(db.till, Events(items), now, now - job.staleAfter))
  }

  lemma ClaimIsOneStep(db: Db, job: Job, now: int, items: seq<WorkItem>)
    ensures Claimed(db, job, now, items) == Step(db, Paying(ClaimBatch(Events(items), now, now - job.staleAfter)))
  {
  }

  /** RunOnce: the claim, then one pass for each claimed event until one fails. The
      answer is the number of claimed events, and whether all of them were handled. */
  method RunOnce(store: Store.AppStore, job: Job, now: int, items: seq<WorkItem>, cs: seq<Conditions>, claim: Fault)
    returns (count: nat, done: bool)
    requires |cs| == |items|
    requires job.extractor.Some? ==> Usable(job.extractor.value)
    requires forall k :: 0 <= k < |items| ==> Sized(items[k].content, items[k].size)
    modifies store
    ensures !Runnable(job) || claim == Fails ==> store.State() == old(store.State()) && count == 0 && !done
    ensures Runnable(job) && claim == Lost ==>
              store.State() == Claimed(old(store.State()), job, now, items) && count == 0 && !done
    ensures Runnable(job) && claim == Fine ==>
              && (store.State(), done) == Batch(Claimed(old(store.State()), job, now, items), job, now, items, cs)
              && count == |items|
  {
    if job.batchSize <= 0 || job.retryBase <= 0 || job.staleAfter <= 0 || claim == Fails {
      return 0, false;
    }
    store.ClaimPaymentEvents(Events(items), now, now - job.staleAfter);
    ghost var claimed := Claimed(old(store.State()), job, now, items);
    assert store.State() == claimed;
    if claim == Lost {
      return 0, false;
    }
    count := |items|;
    done := DisposeAll(store, job, now, items, cs);
  }

  method DisposeAll(store: Store.AppStore, job: Job, now: int, items: seq<WorkItem>, cs: seq<Conditions>)
    returns (done: bool)
    requires |cs| == |items|
    requires job.extractor.Some? ==> Usable(job.extractor.value)
    requires forall k :: 0 <= k < |items| ==> Sized(items[k].content, items[k].size)
    modifies store
    ensures (store.State(), done) == Batch(old(store.State()), job, now, items, cs)
  {
    ghost var claimed := store.State();
    var k := 0;
    while k < |items|
      invariant 0 <= k <= |items|
      invariant Batch(store.State(), job, now, items[k..], cs[k..]) == Batch(claimed, job, now, items, cs)
    {
      assert items[k..][0] == items[k] && items[k..][1..] == items[k + 1..];
      assert cs[k..][0] == cs[k] && cs[k..][1..] == cs[k + 1..];
      var disposed := DisposeOne(store, job, now, items[k], cs[k]);
      if !disposed {
        return false;
      }
      k := k + 1;
    }
    done := true;
  }

  /** The items a claim returns: each selected event once, with its new count. */
  ghost predicate Selected(t: Till, items: seq<WorkItem>, now: int, staleBefore: int) {
    && Distinct(items)
    && forall k :: 0 <= k < |items| ==>
         && items[k].event < |t.events| && EventClaimable(t.events[items[k].event], now, staleBefore)
         && items[k].attempts == t.events[items[k].event].attempts + 1
  }

  /** The claim leaves every selected event waiting for the worker. */
  lemma SelectedAreWaiting(t: Till, items: seq<WorkItem>, now: int, staleBefore: int)
    requires Selected(t, items, now, staleBefore)
    ensures Waiting(ClaimEvents(t, Events(items), now, staleBefore), items)
    ensures var t' := ClaimEvents(t, Events(items), now, staleBefore);
            forall k :: 0 <= k < |items| ==> t'.events[items[k].event] == ClaimedEvent(t.events[items[k].event], now)
  {
    forall k | 0 <= k < |items|
      ensures items[k].event in Events(items)
    {
      assert Events(items)[k] == items[k].event;
    }
  }

  /** In calm conditions a whole run, claim included, disposes of every event it claims:
      none blocks the others, however many acceptances are refused. */
  lemma CalmRunDisposes(db: Db, job: Job, now: int, items: seq<WorkItem>, cs: seq<Conditions>)
    requires |cs| == |items| && forall k :: 0 <= k < |cs| ==> Calm(cs[k])
    requires Selected(db.till, items, now, now - job.staleAfter)
    ensures var (reached, done) := Batch(Claimed(db, job, now, items), job, now, items, cs);
            && done && |reached.till.events| == |db.till.events|
            && (forall k :: 0 <= k < |items| ==> Disposed(job, items[k], reached.till.events[items[k].event]))
            && forall e :: 0 <= e < |db.till.events| && e !in Events(items) ==>
                 reached.till.events[e] == db.till.events[e]
  {
    SelectedAreWaiting(db.till, items, now, now - job.staleAfter);
    NoEventBlocks(Claimed(db, job, now, items), job, now, items, cs);
    OnlyItsOwn(db, job, now, items, cs);
  }

  /** A whole run touches no event it did not claim. */
  lemma OnlyItsOwn(db: Db, job: Job, now: int, items: seq<WorkItem>, cs: seq<Conditions>)
    requires |cs| == |items| && forall k :: 0 <= k < |cs| ==> Alone(cs[k])
    ensures var t' := Batch(Claimed(db, job, now, items), job, now, items, cs).0.till;
            && |t'.events| == |db.till.events|
            && forall e :: 0 <= e < |db.till.events| && e !in Events(items) ==> t'.events[e] == db.till.events[e]
  {
    BatchTouchesOwn(Claimed(db, job, now, items), job, now, items, cs);
    forall e | 0 <= e < |db.till.events| && e !in Events(items)
      ensures forall k :: 0 <= k < |items| ==> items[k].event != e
    {
      forall k | 0 <= k < |items|
        ensures items[k].event != e
      {
        assert Events(items)[k] == items[k].event;
      }
    }
  }

  /** Whatever happens around its passes, a whole run, claim included, keeps everything
      every run keeps. */
  lemma WholeRunKeeps(db: Db, job: Job, now: int, items: seq<WorkItem>, cs: seq<Conditions>)
    requires |cs| == |items| && Inv(db)
    ensures Inv(Claimed(db, job, now, items))
    ensures Inv(Batch(Claimed(db, job, now, items), job, now, items, cs).0)
  {
    ClaimIsOneStep(db, job, now, items);
    ShopInvariant.StepKeeps(db, Paying(ClaimBatch(Events(items), now, now - job.staleAfter)));
    BatchKeeps(Claimed(db, job, now, items), job, now, items, cs);
  }
}
