/** Telegram update receipts and administrator sessions: the two guards that
    make a committed mutation happen at most once. */
module GateTable {
  import opened Results

  type Time = int

  datatype Receipt = ReceiptReceived | ReceiptProcessing(startedAt: Time) | ReceiptCompleted | ReceiptFailed

  datatype Session = Session(admin: nat, state: string, expiresAt: Time, version: nat)

  /** admins tells of each administrator whether the role may manage the shop. */
  datatype Gate = Gate(admins: map<nat, bool>, receipts: map<nat, Receipt>, sessions: seq<Session>)

  /** The session and its version, as an administrator's client last saw them. */
  datatype Ticket = Ticket(admin: nat, session: nat, version: nat)

  const SESSION_COMPLETED := "completed"
  const SESSION_CANCELLED := "cancelled"

  datatype UpdateClaim = UpdateClaimed | DuplicateCompleted | DuplicateProcessing

  /** ClaimUpdate: insert the receipt if it is new, lock it, and start (or take
      over) its processing unless it is completed or freshly processing. */
  function ClaimUpdate(g: Gate, update: nat, now: Time, staleBefore: Time): (Gate, UpdateClaim) {
    var receipt := if update in g.receipts then g.receipts[update] else ReceiptReceived;
    match receipt
    case ReceiptCompleted => (g, DuplicateCompleted)
    case ReceiptProcessing(startedAt) =>
      if startedAt > staleBefore then (g, DuplicateProcessing)
      else (g.(receipts := g.receipts[update := ReceiptProcessing(now)]), UpdateClaimed)
    case _ => (g.(receipts := g.receipts[update := ReceiptProcessing(now)]), UpdateClaimed)
  }

  predicate Processing(g: Gate, update: nat) {
    update in g.receipts && g.receipts[update].ReceiptProcessing?
  }

  /** completeReceipt, the last statement of every transaction that consumes an update. */
  function CompleteReceipt(g: Gate, update: nat): Result<Gate> {
    if Processing(g, update) then Ok(g.(receipts := g.receipts[update := ReceiptCompleted])) else Err(DuplicateUpdate)
  }

  function FailUpdate(g: Gate, update: nat): Result<Gate> {
    if Processing(g, update) then Ok(g.(receipts := g.receipts[update := ReceiptFailed])) else Err(DuplicateUpdate)
  }

  function FindSession(g: Gate, admin: nat): (found: Option<nat>)
    ensures found.Some? ==> found.value < |g.sessions| && g.sessions[found.value].admin == admin
    ensures found.None? ==> forall s :: 0 <= s < |g.sessions| ==> g.sessions[s].admin != admin
  {
    var wanted := (s: Session) => s.admin == admin;
    var found := Find(g.sessions, wanted);
    assert found.None? ==> forall s :: 0 <= s < |g.sessions| ==> !wanted(g.sessions[s]);
    found
  }

  /** StartAdminSession restarts the one session of an administrator, one version on. */
  function StartSession(g: Gate, admin: nat, state: string, expiresAt: Time): Gate {
    match FindSession(g, admin)
    case Some(s) => g.(sessions := g.sessions[s := Session(admin, state, expiresAt, g.sessions[s].version + 1)])
    case None => g.(sessions := g.sessions + [Session(admin, state, expiresAt, 1)])
  }

  /** lockAndVerifySession. */
  function VerifySession(g: Gate, ticket: Ticket, required: string, now: Time): Check {
    if ticket.session >= |g.sessions| then Fail(NotFound)
    else
      var row := g.sessions[ticket.session];
      if row.admin != ticket.admin then Fail(Forbidden)
      else if row.expiresAt <= now then Fail(SessionExpired)
      else if row.version != ticket.version then Fail(StaleVersion)
      else if required != "" && row.state != required then Fail(StaleVersion)
      else Pass
  }

  predicate Live(g: Gate, ticket: Ticket, now: Time) {
    && ticket.session < |g.sessions|
    && g.sessions[ticket.session].admin == ticket.admin
    && g.sessions[ticket.session].version == ticket.version
    && g.sessions[ticket.session].expiresAt > now
    && g.sessions[ticket.session].state != SESSION_COMPLETED
    && g.sessions[ticket.session].state != SESSION_CANCELLED
  }

  /** FinishAdminSessionGuarded. */
  function FinishSession(g: Gate, ticket: Ticket, state: string, now: Time): Result<Gate> {
    if Live(g, ticket, now) then
      Ok(g.(sessions := g.sessions[ticket.session := Session(ticket.admin, state, now, ticket.version + 1)]))
    else Err(StaleVersion)
  }

  /** AdvanceAdminSessionGuarded. */
  function AdvanceSession(g: Gate, ticket: Ticket, state: string, expiresAt: Time, now: Time): Result<Gate> {
    if Live(g, ticket, now) then
      Ok(g.(sessions := g.sessions[ticket.session := Session(ticket.admin, state, expiresAt, ticket.version + 1)]))
    else Err(StaleVersion)
  }

  predicate Manages(g: Gate, admin: nat) {
    admin in g.admins && g.admins[admin]
  }

  /** The checks before a mutation of payments, wallets or deliveries. */
  function Admit(g: Gate, ticket: Ticket, required: string, now: Time): Check {
    if ticket.admin !in g.admins then Fail(Unauthorized)
    else if !Manages(g, ticket.admin) then Fail(Forbidden)
    else VerifySession(g, ticket, required, now)
  }

  /** requireCatalogAdmin and the session check: the checks before a mutation of
      the catalogue, the inventory or a session. */
  function AdmitToCatalog(g: Gate, ticket: Ticket, required: string, now: Time): Check {
    if !Manages(g, ticket.admin) then Fail(Forbidden) else VerifySession(g, ticket, required, now)
  }

  /** The statements after it: the session is used up and the receipt completed. */
  function Leave(g: Gate, ticket: Ticket, update: nat, now: Time): Result<Gate> {
    var finished :- FinishSession(g, ticket, SESSION_COMPLETED, now);
    CompleteReceipt(finished, update)
  }

  function BeginSession(g: Gate, admin: nat, state: string, expiresAt: Time, update: nat): Result<Gate> {
    var checked := Need(Manages(g, admin), Forbidden);
    :- checked;
    CompleteReceipt(StartSession(g, admin, state, expiresAt), update)
  }

  function ContinueSession(g: Gate, ticket: Ticket, state: string, expiresAt: Time, update: nat,
                           now: Time): Result<Gate>
  {
    var admitted := AdmitToCatalog(g, ticket, "", now);
    :- admitted;
    var advanced :- AdvanceSession(g, ticket, state, expiresAt, now);
    CompleteReceipt(advanced, update)
  }

  function CancelSession(g: Gate, ticket: Ticket, update: nat, now: Time): Result<Gate> {
    var admitted := AdmitToCatalog(g, ticket, "", now);
    :- admitted;
    var finished :- FinishSession(g, ticket, SESSION_CANCELLED, now);
    CompleteReceipt(finished, update)
  }

  // ---------- what every commit keeps ----------

  /** A later gate: completed receipts stay completed and session versions never
      go back. Every statement on the gate moves it forward in this sense. */
  ghost predicate Forward(g: Gate, g': Gate) {
    && (forall u :: u in g.receipts && g.receipts[u] == ReceiptCompleted ==>
        u in g'.receipts && g'.receipts[u] == ReceiptCompleted)
    && |g.sessions| <= |g'.sessions|
    && (forall s :: 0 <= s < |g.sessions| ==> g'.sessions[s].version >= g.sessions[s].version)
  }

  lemma ForwardIsTransitive(a: Gate, b: Gate, c: Gate)
    requires Forward(a, b) && Forward(b, c)
    ensures Forward(a, c)
  {
    forall s | 0 <= s < |a.sessions|
      ensures c.sessions[s].version >= a.sessions[s].version
    {
      assert b.sessions[s].version >= a.sessions[s].version;
    }
  }
}
