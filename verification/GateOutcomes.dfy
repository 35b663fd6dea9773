/** What admission, sessions and update receipts do, said on the rows of the gate. */
module GateOutcomes {
  import opened Results
  import opened GateTable

  // ---------- what an administrator needs ----------

  /** The administrator manages the shop, and the ticket names a session of that
      administrator, at its version, that has not expired and is in the given state. */
  predicate Entitled(g: Gate, ticket: Ticket, state: string, now: int) {
    && ticket.admin in g.admins && g.admins[ticket.admin]
    && OwnsSession(g, ticket)
    && g.sessions[ticket.session].expiresAt > now
    && g.sessions[ticket.session].version == ticket.version
    && g.sessions[ticket.session].state == state
  }

  predicate OwnsSession(g: Gate, ticket: Ticket) {
    ticket.session < |g.sessions| && g.sessions[ticket.session].admin == ticket.admin
  }

  predicate BeingProcessed(g: Gate, update: nat) {
    update in g.receipts && g.receipts[update].ReceiptProcessing?
  }

  /** The gate after the session was ended in a state and the update completed. */
  function Used(g: Gate, ticket: Ticket, state: string, expiresAt: int, update: nat): Gate
    requires ticket.session < |g.sessions|
  {
    Gate(g.admins, g.receipts[update := ReceiptCompleted],
         g.sessions[ticket.session := Session(ticket.admin, state, expiresAt, ticket.version + 1)])
  }

  /** Every transaction that an administrator confirms in a session is admitted and can
      leave if and only if the ticket entitles to it and its update is being processed;
      it ends the session and completes the update. */
  lemma UseIsExact(g: Gate, ticket: Ticket, state: string, update: nat, now: int)
    requires state !in {"", "completed", "cancelled"}
    ensures Admit(g, ticket, state, now).Pass? <==> Entitled(g, ticket, state, now)
    ensures AdmitToCatalog(g, ticket, state, now).Pass? <==> Entitled(g, ticket, state, now)
    ensures Entitled(g, ticket, state, now) ==>
              (Leave(g, ticket, update, now).Ok? <==> BeingProcessed(g, update))
    ensures Leave(g, ticket, update, now).Ok? ==>
              && ticket.session < |g.sessions| && BeingProcessed(g, update)
              && Leave(g, ticket, update, now).value == Used(g, ticket, "completed", now, update)
  {
  }

  /** Why an administrator is not admitted. */
  lemma RefusalIsExact(g: Gate, ticket: Ticket, state: string, now: int)
    requires state != ""
    ensures var admitted := Admit(g, ticket, state, now);
            var known, manages := ticket.admin in g.admins, ticket.admin in g.admins && g.admins[ticket.admin];
            var owns := manages && OwnsSession(g, ticket);
            var live := owns && g.sessions[ticket.session].expiresAt > now;
            && (admitted == Fail(Unauthorized) <==> !known)
            && (admitted == Fail(NotFound) <==> manages && ticket.session >= |g.sessions|)
            && (admitted == Fail(Forbidden) <==>
                (known && !manages) || (manages && ticket.session < |g.sessions| && !owns))
            && (admitted == Fail(SessionExpired) <==> owns && !live)
            && (admitted == Fail(StaleVersion) <==>
                live && (g.sessions[ticket.session].version != ticket.version
                         || g.sessions[ticket.session].state != state))
    ensures AdmitToCatalog(g, ticket, state, now) ==
            if ticket.admin in g.admins then Admit(g, ticket, state, now) else Fail(Forbidden)
  {
  }

  // ---------- sessions ----------

  /** A session opens if and only if the administrator manages the shop and the update
      is being processed. An administrator's first session is a new row at version 1. */
  lemma OpeningIsExact(g: Gate, admin: nat, state: string, expiresAt: int, update: nat)
    ensures var r := BeginSession(g, admin, state, expiresAt, update);
            && (r.Ok? <==> admin in g.admins && g.admins[admin] && BeingProcessed(g, update))
            && (r.Ok? ==> r.value == Gate(g.admins, g.receipts[update := ReceiptCompleted], r.value.sessions))
            && (r.Ok? && (forall s :: 0 <= s < |g.sessions| ==> g.sessions[s].admin != admin) ==>
                  r.value.sessions == g.sessions + [Session(admin, state, expiresAt, 1)])
  {
  }

  /** The one session an administrator has restarts a version on. */
  lemma ReopeningIsExact(g: Gate, admin: nat, state: string, expiresAt: int, update: nat, s: nat)
    requires s < |g.sessions| && g.sessions[s].admin == admin
    requires forall i :: 0 <= i < |g.sessions| && i != s ==> g.sessions[i].admin != admin
    ensures var r := BeginSession(g, admin, state, expiresAt, update);
            r.Ok? ==>
              r.value.sessions == g.sessions[s := Session(admin, state, expiresAt, g.sessions[s].version + 1)]
  {
  }

  /** A session goes on, or is cancelled, if and only if its ticket entitles to it in
      its present state, it has not ended, and the update is being processed. */
  lemma ContinuationIsExact(g: Gate, ticket: Ticket, state: string, expiresAt: int, update: nat, now: int)
    ensures var r := ContinueSession(g, ticket, state, expiresAt, update, now);
            && (r.Ok? <==> MayGoOn(g, ticket, now) && BeingProcessed(g, update))
            && (r.Ok? ==> r.value == Used(g, ticket, state, expiresAt, update))
    ensures var r := CancelSession(g, ticket, update, now);
            && (r.Ok? <==> MayGoOn(g, ticket, now) && BeingProcessed(g, update))
            && (r.Ok? ==> r.value == Used(g, ticket, "cancelled", now, update))
  {
  }

  predicate MayGoOn(g: Gate, ticket: Ticket, now: int) {
    && OwnsSession(g, ticket)
    && g.sessions[ticket.session].state !in {"completed", "cancelled"}
    && Entitled(g, ticket, g.sessions[ticket.session].state, now)
  }

  // ---------- update receipts ----------

  /** An update is claimed unless it is completed, or another worker started it after
      the staleness bound; a claim starts it anew, and anything else writes nothing. */
  lemma UpdateClaimIsExact(g: Gate, update: nat, now: int, staleBefore: int)
    ensures var (g', claim) := ClaimUpdate(g, update, now, staleBefore);
            && (claim == DuplicateCompleted <==> update in g.receipts && g.receipts[update] == ReceiptCompleted)
            && (claim == DuplicateProcessing <==>
                BeingProcessed(g, update) && g.receipts[update].startedAt > staleBefore)
            && g' == if claim == UpdateClaimed then
                       Gate(g.admins, g.receipts[update := ReceiptProcessing(now)], g.sessions)
                     else g
  {
  }

  /** Completing and failing an update write its receipt, if it is being processed. */
  lemma ReceiptsAreExact(g: Gate, update: nat)
    ensures var r := CompleteReceipt(g, update);
            r == if BeingProcessed(g, update) then
                   Ok(Gate(g.admins, g.receipts[update := ReceiptCompleted], g.sessions))
                 else Err(DuplicateUpdate)
    ensures var r := FailUpdate(g, update);
            r == if BeingProcessed(g, update) then
                   Ok(Gate(g.admins, g.receipts[update := ReceiptFailed], g.sessions))
                 else Err(DuplicateUpdate)
  {
  }
}
