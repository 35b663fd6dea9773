/** What top-ups do, said on the rows: creating one, paying one by transfer, and every
    transfer that is for no target at all. */
module TopupOutcomes {
  import opened Results
  import opened Agreement
  import opened Database
  import opened GateOutcomes
  import opened PaymentAcceptance
  import opened PurchaseOutcomes
  import opened SalesTable
  import opened TillTable
  import opened WalletOutcomes
  import opened WalletStore
  import opened WalletTable
  import GateTable
  import Text

  // ---------- a transfer for a top-up ----------

  /** A transfer pays a top-up that waits for exactly this amount, in the shop's
      currency, before it expires, to its bank account. */
  predicate PaysTopup(topup: Topup, c: PaymentCommand, now: int) {
    && topup.environment == c.environment && (c.destination.None? || c.destination.value == topup.bank)
    && topup.amount == c.amount && c.currency == "VND"
    && topup.status == TopupPending && topup.expiresAt > now
  }

  /** Why a transfer does not pay a top-up: the first thing that is wrong. */
  lemma TopupReasonsAreExact(topup: Topup, c: PaymentCommand, now: int)
    ensures var reason := TopupProblem(topup, c, now);
            var here := topup.environment == c.environment
                && (c.destination.None? || c.destination.value == topup.bank);
            && (reason == "" <==> PaysTopup(topup, c, now))
            && (reason == "provider_destination_account_mismatch" <==> !here)
            && (reason == "amount_mismatch" <==> here && topup.amount != c.amount)
            && (reason == "currency_mismatch" <==> here && topup.amount == c.amount && c.currency != "VND")
            && (reason == "topup_expired" <==>
                && here && topup.amount == c.amount && c.currency == "VND"
                && (topup.status != TopupPending || topup.expiresAt <= now))
  {
  }

  function PaymentKey(p: nat): string {
    "payment:" + Text.Decimal(p)
  }

  ghost predicate TopupRefused(db: Db, result: (Db, Acceptance), c: PaymentCommand, u: nat, reason: string)
    requires u < |db.wallets.topups|
  {
    var topup := db.wallets.topups[u];
    var payment := TransferRow(c, None, topup.user, false);
    var marked := topup.(status := TopupInReview, version := topup.version + 1);
    && result.1 == Acceptance(InReview(reason), Some(|db.till.payments|), 0)
    && result.0 == db.(
         till := TillInReview(db.till, c, payment, TopupTarget(u), reason),
         wallets := if topup.status in {TopupPending, TopupExpired} then
                      db.wallets.(topups := db.wallets.topups[u := marked])
                    else db.wallets)
  }

  ghost predicate TopupCreditedBy(db: Db, result: (Db, Acceptance), c: PaymentCommand, u: nat)
    requires u < |db.wallets.topups| && db.wallets.topups[u].account < |db.wallets.accounts|
  {
    var topup := db.wallets.topups[u];
    var p := |db.till.payments|;
    var posted := Posted(db.wallets, topup.account, FromTopup(u), topup.amount, PaymentKey(p));
    && result.1 == Acceptance(Accepted, Some(p), 0)
    && result.0 == db.(
         till := Till(db.till.payments + [TransferRow(c, None, topup.user, true)],
                      db.till.allocations + [Allocation(p, TopupTarget(u), topup.amount)],
                      db.till.reviews, Marked(db.till.events, c.event, EventCompleted)),
         wallets := posted.(topups := posted.topups[
           u := topup.(status := TopupCredited, version := topup.version + 1)]))
  }

  /** A first transfer that names one top-up, in a sound state: if it does not pay the
      top-up it is recorded and put under review, for the first thing that is wrong. If
      it does, it is accepted if and only if the account takes the amount, and then
      credits exactly that; otherwise the whole transaction fails. */
  lemma TopupDecision(db: Db, c: PaymentCommand, u: nat, terms: Terms)
    requires Inv(db) && HasOpenEvent(db.till, c) && NewTransaction(db.till, c)
    requires NamesTopup(db, c, u) && forall o :: 0 <= o < |db.sales.orders| ==> !NamesOrder(db, c, o)
    ensures db.wallets.topups[u].account < |db.wallets.accounts|
    ensures var r := AcceptPayment(db, c, terms);
            var topup := db.wallets.topups[u];
            var pays := PaysTopup(topup, c, terms.now);
            var taken := Takes(db.wallets, topup.account, topup.amount, PaymentKey(|db.till.payments|));
            && (r.Ok? <==> if pays then taken else c.amount > 0)
            && (r.Ok? ==>
                  if pays then TopupCreditedBy(db, r.value, c, u)
                  else TopupRefused(db, r.value, c, u, TopupProblem(topup, c, terms.now)))
  {
    assert Holds(WalletsSound, db);
    assert TopupOk(db.wallets, u);
    NewTransferIsForTopup(db, c, u, terms);
    TopupReasonsAreExact(db.wallets.topups[u], c, terms.now);
    if PaysTopup(db.wallets.topups[u], c, terms.now) {
      CreditIsExact(db, c, u, terms.now);
    } else if c.amount > 0 {
      TopupRefusalIsExact(db, c, u, terms.now);
    }
  }

  lemma NewTransferIsForTopup(db: Db, c: PaymentCommand, u: nat, terms: Terms)
    requires Inv(db) && HasOpenEvent(db.till, c) && NewTransaction(db.till, c)
    requires NamesTopup(db, c, u) && forall o :: 0 <= o < |db.sales.orders| ==> !NamesOrder(db, c, o)
    ensures AcceptPayment(db, c, terms) == AcceptForTopup(db, c, u, terms.now)
  {
    assert Holds(WalletsSound, db);
    var found := FindTopupByReference(db.wallets, c.reference);
    assert found.Some? && found.value == u;
    assert FindByReference(db.sales, c.reference).None? by {
      var o := FindByReference(db.sales, c.reference);
      if o.Some? {
        assert NamesOrder(db, c, o.value);
      }
    }
  }

  lemma TopupRefusalIsExact(db: Db, c: PaymentCommand, u: nat, now: int)
    requires Inv(db) && HasOpenEvent(db.till, c) && c.amount > 0 && NewTransaction(db.till, c)
    requires u < |db.wallets.topups| && TopupProblem(db.wallets.topups[u], c, now) != ""
    ensures var r := AcceptForTopup(db, c, u, now);
            r.Ok? && TopupRefused(db, r.value, c, u, TopupProblem(db.wallets.topups[u], c, now))
  {
    assert Holds(TillSound, db);
    var topup := db.wallets.topups[u];
    var payment := TransferRow(c, None, topup.user, false);
    PaymentWrites(db.till, payment);
    var marked := topup.(status := TopupInReview, version := topup.version + 1);
    var wallets := if topup.status in {TopupPending, TopupExpired} then
                     db.wallets.(topups := db.wallets.topups[u := marked])
                   else db.wallets;
    ReviewWrites(db.(wallets := wallets), c, payment, TopupTarget(u), TopupProblem(topup, c, now));
  }

  lemma CreditIsExact(db: Db, c: PaymentCommand, u: nat, now: int)
    requires Inv(db) && HasOpenEvent(db.till, c) && c.amount > 0 && NewTransaction(db.till, c)
    requires u < |db.wallets.topups| && PaysTopup(db.wallets.topups[u], c, now)
    requires db.wallets.topups[u].account < |db.wallets.accounts|
    ensures var r := AcceptForTopup(db, c, u, now);
            var topup := db.wallets.topups[u];
            && (r.Ok? <==> Takes(db.wallets, topup.account, topup.amount, PaymentKey(|db.till.payments|)))
            && (r.Ok? ==> TopupCreditedBy(db, r.value, c, u))
  {
    var topup := db.wallets.topups[u];
    TopupReasonsAreExact(topup, c, now);
    var payment := TransferRow(c, None, topup.user, true);
    PaymentWrites(db.till, payment);
    PostingIsExact(db.wallets, topup.account, FromTopup(u), topup.amount, PaymentKey(|db.till.payments|));
    FirstAllocationToTopup(db, u, payment);
  }

  lemma FirstAllocationToTopup(db: Db, u: nat, payment: Payment)
    requires Inv(db) && u < |db.wallets.topups| && db.wallets.topups[u].status != TopupCredited
    ensures var t := db.till.(payments := db.till.payments + [payment]);
            FindAllocation(t, |db.till.payments|).None? && FindTarget(t, TopupTarget(u)).None?
  {
    assert Holds(TillSound, db) && Holds(TopupsMatch, db);
    assert PaidIffCredited(db.till, db.wallets, u);
    FirstAllocation(db, db.till.(payments := db.till.payments + [payment]), TopupTarget(u), payment);
  }

  // ---------- transfers for nothing ----------

  /** A new transfer whose reference names an order and a top-up, or neither, only opens
      a case without a payment. */
  lemma StrayTransferIsExact(db: Db, c: PaymentCommand, terms: Terms)
    requires Inv(db) && HasOpenEvent(db.till, c) && NewTransaction(db.till, c)
    requires (exists o :: 0 <= o < |db.sales.orders| && NamesOrder(db, c, o)) <==>
               exists u :: 0 <= u < |db.wallets.topups| && NamesTopup(db, c, u)
    ensures var ambiguous := exists o :: 0 <= o < |db.sales.orders| && NamesOrder(db, c, o);
            var reason := if ambiguous then "provider_ambiguous_reference" else "unknown_reference";
            AcceptPayment(db, c, terms) ==
            Ok((db.(till := Till(db.till.payments, db.till.allocations,
                                 db.till.reviews + [Review(c.event, None, None, reason, Open)],
                                 Marked(db.till.events, c.event, EventInReview))),
                Acceptance(InReview(reason), None, 0)))
  {
    assert Holds(TillSound, db);
    var order := FindByReference(db.sales, c.reference);
    var topup := FindTopupByReference(db.wallets, c.reference);
    if order.Some? {
      assert NamesOrder(db, c, order.value);
    }
    if topup.Some? {
      assert NamesTopup(db, c, topup.value);
    }
    if c.event.Some? {
      assert FindReviewOfEvent(db.till, c.event.value).None?;
    }
  }

  /** A command about an event that is not being processed changes nothing: a settled
      event makes it a duplicate, any other one an error. */
  lemma ClosedEventIsExact(db: Db, c: PaymentCommand, terms: Terms)
    requires c.event.Some? && !HasOpenEvent(db.till, c)
    ensures AcceptPayment(db, c, terms) ==
            if c.event.value >= |db.till.events| then Err(NoRows)
            else if db.till.events[c.event.value].status in {EventCompleted, EventInReview} then
              Ok((db, Acceptance(Duplicate, None, 0)))
            else Err(Conflict)
  {
  }

  // ---------- asking for a top-up ----------

  predicate Asked(w: Wallets, user: nat, key: string, u: nat) {
    u < |w.topups| && w.topups[u].user == user && w.topups[u].key == key
  }

  /** A top-up intent is created once for each key of a user. A new one needs an active
      bank account of its environment, a positive amount and an unused reference; its
      row says exactly what was asked for. Asking again answers the same intent. */
  lemma TopupCreationIsExact(db: Db, request: TopupRequest, update: nat)
    requires Inv(db)
    ensures var r := CreateTopup(db, request, update);
            var known := exists u :: 0 <= u < |db.wallets.topups| && Asked(db.wallets, request.user, request.key, u);
            && (r.Ok? <==>
                && MayAsk(db, request.user) && BeingProcessed(db.gate, update)
                && (known || (&& request.bank < |db.sales.banks| && db.sales.banks[request.bank].active
                              && db.sales.banks[request.bank].environment == request.environment
                              && request.amount > 0
                              && forall u :: 0 <= u < |db.wallets.topups| ==>
                                   db.wallets.topups[u].reference != request.reference)))
            && (r.Ok? ==>
                  var (db', u, duplicate) := r.value;
                  && duplicate == known
                  && db'.gate.receipts == db.gate.receipts[update := GateTable.ReceiptCompleted]
                  && db' == db.(gate := db.gate.(receipts := db'.gate.receipts), wallets := db'.wallets)
                  && (known ==> Asked(db.wallets, request.user, request.key, u) && db'.wallets == db.wallets)
                  && (!known ==> u == |db.wallets.topups| && TopupAsked(db.wallets, db'.wallets, request)))
  {
    var found := FindTopupByKey(db.wallets, request.user, request.key);
    if found.Some? {
      assert Asked(db.wallets, request.user, request.key, found.value);
    } else {
      assert forall u :: 0 <= u < |db.wallets.topups| ==> !Asked(db.wallets, request.user, request.key, u);
      AccountIsExact(db.wallets, request.user);
      var (ensured, account) := EnsureAccount(db.wallets, request.user);
      InsertionIsExact(db.wallets, ensured, Topup(request.user, account, request.amount, request.reference,
                                                  request.key, TopupPending, request.expiresAt, request.environment,
                                                  request.bank, 1));
    }
  }

  /** The new intent and, if the user had none, the new account. */
  ghost predicate TopupAsked(w: Wallets, w': Wallets, request: TopupRequest) {
    exists account ::
      && AccountOf(w, request.user, account)
      && w' == WithAccount(w, request.user, account).(
           topups := w.topups + [Topup(request.user, account, request.amount, request.reference, request.key,
                                       TopupPending, request.expiresAt, request.environment, request.bank, 1)])
  }

  lemma InsertionIsExact(w: Wallets, ensured: Wallets, topup: Topup)
    requires ensured.topups == w.topups && topup.status == TopupPending && topup.version == 1
    requires forall u :: 0 <= u < |w.topups| ==> !Asked(w, topup.user, topup.key, u)
    ensures var r := InsertTopup(ensured, topup);
            && (r.Ok? && r.value.Some? <==>
                && topup.amount > 0
                && forall u :: 0 <= u < |w.topups| ==> w.topups[u].reference != topup.reference)
            && (r.Ok? && r.value.Some? ==> r.value.value == ensured.(topups := w.topups + [topup]))
  {
    var byKey := FindTopupByKey(ensured, topup.user, topup.key);
    if byKey.Some? {
      assert Asked(w, topup.user, topup.key, byKey.value);
    }
    var byReference := FindTopupByReference(ensured, topup.reference);
    if byReference.Some? {
      assert w.topups[byReference.value].reference == topup.reference;
    }
  }
}
