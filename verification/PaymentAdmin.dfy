/** Manual acceptance and review resolution by an administrator, and the life
    of inbound payment events around their acceptance. */
module PaymentAdmin {
  import opened Results
  import opened Database
  import opened GateTable
  import opened PaymentAcceptance
  import opened TillTable

  const PAYMENT_MANUAL := "payment.manual"
  const PAYMENT_REVIEW := "payment.review"

  /** A payment an administrator enters: provider "manual" and no event. */
  function ByHand(c: PaymentCommand): PaymentCommand {
    c.(event := None, provider := "manual", environment := "production", destination := None)
  }

  /** ManualAcceptPayment: the same acceptance. */
  function ManualAccept(db: Db, ticket: Ticket, update: nat, c: PaymentCommand,
                        terms: Terms): Result<(Db, Acceptance)>
  {
    var admitted := Admit(db.gate, ticket, PAYMENT_MANUAL, terms.now);
    :- admitted;
    var (next, acceptance) :- AcceptPayment(db, ByHand(c), terms);
    var gate :- Leave(next.gate, ticket, update, terms.now);
    Ok((next.(gate := gate), acceptance))
  }

  function ResolveReviewCase(db: Db, ticket: Ticket, update: nat, review: nat, status: ReviewStatus,
                             now: int): Result<Db>
  {
    var admitted := Admit(db.gate, ticket, PAYMENT_REVIEW, now);
    :- admitted;
    if ResolveReview(db.till, review, status).Err? then Err(NotFound)
    else
      var gate :- Leave(db.gate, ticket, update, now);
      Ok(db.(till := ResolveReview(db.till, review, status).value, gate := gate))
  }

  /** ReviewPaymentEvent. */
  function ReviewEvent(t: Till, e: nat, reason: string): Result<Till> {
    if e >= |t.events| then Err(NoRows)
    else if t.events[e].status == EventInReview || t.events[e].status == EventCompleted then Ok(t)
    else MarkEventReviewed(InsertReview(t, Review(Some(e), None, None, reason, Open)), e)
  }

  /** RecordPaymentEventConflict: an event that is already settled keeps its status. */
  function ConflictEvent(t: Till, e: nat, reason: string): Result<Till> {
    if e >= |t.events| then Err(NoRows)
    else
      var filed := InsertReview(t, Review(Some(e), None, None, reason, Open));
      match MarkEventReviewed(filed, e)
      case Ok(marked) => Ok(marked)
      case Err(_) => Ok(filed)
  }
}
