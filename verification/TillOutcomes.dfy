/** What inbound payment events, review cases and payments entered by hand do, said on
    the rows. */
module TillOutcomes {
  import opened Results
  import opened Database
  import ExactlyOnce
  import opened GateOutcomes
  import opened GateTable
  import opened PaymentAcceptance
  import opened PaymentAdmin
  import opened PurchaseOutcomes
  import opened TillTable

  // ---------- inbound events ----------

  /** The event has an attempt left, and is due or was abandoned by the worker that took it. */
  predicate Takeable(event: PaymentEvent, now: int, staleBefore: int) {
    && event.attempts < event.maxAttempts
    && ((event.status == EventReceived && event.nextAttemptAt <= now)
        || (event.status == EventProcessing && event.startedAt <= staleBefore))
  }

  /** A claim takes exactly the picked events that can be taken, starts one attempt of
      each, and writes nothing else. */
  lemma EventClaimIsExact(t: Till, picked: seq<nat>, now: int, staleBefore: int)
    ensures var t' := ClaimEvents(t, picked, now, staleBefore);
            && |t'.events| == |t.events| && t' == t.(events := t'.events)
            && forall e: nat :: e < |t.events| ==>
                 t'.events[e] == if e in picked && Takeable(t.events[e], now, staleBefore) then
                                   PaymentEvent(EventProcessing, t.events[e].attempts + 1, t.events[e].maxAttempts,
                                                t.events[e].nextAttemptAt, now)
                                 else t.events[e]
  {
  }

  /** An event arrives due at once with its whole budget. One whose worker failed waits
      until the given time, unless its attempts are used up, and then it has failed. One
      that is no payment is completed. Only an event that is being processed moves. */
  lemma EventMovesAreExact(t: Till, e: nat, maxAttempts: nat, at: int)
    ensures InsertEvent(t, maxAttempts, at) ==
            t.(events := t.events + [PaymentEvent(EventReceived, 0, maxAttempts, at, 0)])
    ensures RetryEvent(t, e, at).Ok? <==> InWork(t, e)
    ensures RetryEvent(t, e, at).Ok? ==>
              var event := t.events[e];
              var next := if event.attempts < event.maxAttempts then EventReceived else EventFailed;
              RetryEvent(t, e, at).value == t.(events := t.events[
                e := PaymentEvent(next, event.attempts, event.maxAttempts, at, event.startedAt)])
    ensures FinishEvent(t, Some(e), EventCompleted) ==
            if InWork(t, e) then Ok(t.(events := Marked(t.events, Some(e), EventCompleted))) else Err(NoRows)
  {
  }

  predicate InWork(t: Till, e: nat) {
    e < |t.events| && t.events[e].status == EventProcessing
  }

  // ---------- review cases of events ----------

  /** The one case of an event: a new open one, or the known one with a new reason. */
  ghost predicate CaseOfEvent(t: Till, reviews: seq<Review>, e: nat, reason: string) {
    if forall r :: 0 <= r < |t.reviews| ==> t.reviews[r].event != Some(e) then
      reviews == t.reviews + [Review(Some(e), None, None, reason, Open)]
    else
      exists r :: 0 <= r < |t.reviews| && t.reviews[r].event == Some(e)
                  && reviews == t.reviews[r := t.reviews[r].(reason := reason)]
  }

  predicate Unsettled(t: Till, e: nat) {
    e < |t.events| && t.events[e].status in {EventReceived, EventProcessing}
  }

  /** An event is put under review before any acceptance, with its case; one that is
      settled stays as it is, and one that has failed cannot be reviewed. */
  lemma EventReviewIsExact(t: Till, e: nat, reason: string)
    ensures var r := ReviewEvent(t, e, reason);
            && (r.Ok? <==> e < |t.events| && t.events[e].status != EventFailed)
            && (r.Ok? && !Unsettled(t, e) ==> r.value == t)
            && (r.Ok? && Unsettled(t, e) ==>
                  && r.value == Till(t.payments, t.allocations, r.value.reviews,
                                     Marked(t.events, Some(e), EventInReview))
                  && CaseOfEvent(t, r.value.reviews, e, reason))
  {
    CaseIsFiled(t, e, reason);
  }

  /** A second, different copy of an event always files a case; the event itself only
      moves if it is not settled. */
  lemma EventConflictIsExact(t: Till, e: nat, reason: string)
    ensures var r := ConflictEvent(t, e, reason);
            && (r.Ok? <==> e < |t.events|)
            && (r.Ok? ==>
                  && r.value == Till(t.payments, t.allocations, r.value.reviews,
                                     if Unsettled(t, e) then Marked(t.events, Some(e), EventInReview) else t.events)
                  && CaseOfEvent(t, r.value.reviews, e, reason))
  {
    CaseIsFiled(t, e, reason);
  }

  lemma CaseIsFiled(t: Till, e: nat, reason: string)
    ensures var filed := InsertReview(t, Review(Some(e), None, None, reason, Open));
            && filed == t.(reviews := filed.reviews)
            && CaseOfEvent(t, filed.reviews, e, reason)
  {
    var known := FindReviewOfEvent(t, e);
    if known.Some? {
      assert t.reviews[known.value].event == Some(e);
    }
  }

  // ---------- what an administrator does ----------

  /** A case is resolved if and only if the administrator is entitled to, the update is
      being processed, and the case is open or held; it gets exactly the given status. */
  lemma ResolutionIsExact(db: Db, ticket: Ticket, update: nat, review: nat, status: ReviewStatus, now: int)
    ensures var r := ResolveReviewCase(db, ticket, update, review, status, now);
            && (r.Ok? <==>
                && Entitled(db.gate, ticket, "payment.review", now) && BeingProcessed(db.gate, update)
                && review < |db.till.reviews| && db.till.reviews[review].status in {Open, Held})
            && (r.Ok? ==>
                  var row := db.till.reviews[review];
                  r.value == db.(
                    till := db.till.(reviews := db.till.reviews[
                      review := Review(row.event, row.payment, row.target, row.reason, status)]),
                    gate := Used(db.gate, ticket, "completed", now, update)))
  {
    UseIsExact(db.gate, ticket, "payment.review", update, now);
  }

  /** A payment by hand commits if and only if the administrator is entitled to, the
      update is being processed, and the acceptance of it as a transfer without an event
      or a destination commits; it then does exactly what that acceptance does. */
  lemma ManualAcceptIsExact(db: Db, ticket: Ticket, update: nat, c: PaymentCommand, terms: Terms)
    ensures var r := ManualAccept(db, ticket, update, c, terms);
            var accepted := AcceptPayment(db, PaymentCommand(None, "manual", c.transaction, c.reference, c.amount,
                                                             c.currency, "production", None), terms);
            && (r.Ok? <==>
                && Entitled(db.gate, ticket, "payment.manual", terms.now) && BeingProcessed(db.gate, update)
                && accepted.Ok?)
            && (r.Ok? ==>
                  r.value == (accepted.value.0.(gate := Used(db.gate, ticket, "completed", terms.now, update)),
                              accepted.value.1))
  {
    UseIsExact(db.gate, ticket, "payment.manual", update, terms.now);
    if AcceptPayment(db, ByHand(c), terms).Ok? {
      ExactlyOnce.AcceptGate(db, ByHand(c), terms);
    }
  }
}
