/** Wallet accounts, their append-only ledger and the top-up intents, with the
    SQL statements that read and write them. */
module WalletTable {
  import opened Results
  import opened Domain

  type Time = int

  datatype AccountStatus = ActiveAccount | FrozenAccount | ClosedAccount

  datatype Account = Account(user: nat, balance: int, status: AccountStatus, version: nat)

  /** What a ledger entry refers to: reference_type and reference_id. */
  datatype Source = FromTopup(topup: nat) | ForOrder(order: nat) | ByAdmin(admin: nat)

  datatype Entry = Entry(account: nat, source: Source, amount: int, balanceAfter: int, key: string)

  datatype TopupStatus = TopupPending | TopupCredited | TopupExpired | TopupCancelled | TopupInReview

  datatype Topup = Topup(
    user: nat, account: nat, amount: int, reference: string, key: string, status: TopupStatus,
    expiresAt: Time, environment: string, bank: nat, version: nat)

  datatype Wallets = Wallets(accounts: seq<Account>, ledger: seq<Entry>, topups: seq<Topup>)

  function FindAccount(w: Wallets, user: nat): (found: Option<nat>)
    ensures found.Some? ==> found.value < |w.accounts| && w.accounts[found.value].user == user
    ensures found.None? ==> forall a :: 0 <= a < |w.accounts| ==> w.accounts[a].user != user
  {
    var wanted := (a: Account) => a.user == user;
    var found := Find(w.accounts, wanted);
    assert found.None? ==> forall a :: 0 <= a < |w.accounts| ==> !wanted(w.accounts[a]);
    found
  }

  /** EnsureWalletAccount inserts the account of a user on first use. */
  function EnsureAccount(w: Wallets, user: nat): (ensured: (Wallets, nat))
    ensures ensured.1 < |ensured.0.accounts| && ensured.0.accounts[ensured.1].user == user
  {
    match FindAccount(w, user)
    case Some(a) => (w, a)
    case None => (w.(accounts := w.accounts + [Account(user, 0, ActiveAccount, 1)]), |w.accounts|)
  }

  /** UpdateWalletBalance adds an amount, and matches no row if the account is
      not active or the balance would become negative. */
  function UpdateBalance(w: Wallets, account: nat, amount: int): Result<Wallets> {
    if account < |w.accounts| && w.accounts[account].status == ActiveAccount
        && w.accounts[account].balance + amount >= 0 then
      var row := w.accounts[account];
      if row.balance + amount > MAX_INT64 then Err(Constraint)
      else Ok(w.(accounts := w.accounts[account := row.(balance := row.balance + amount, version := row.version + 1)]))
    else Err(NoRows)
  }

  function FindEntry(w: Wallets, account: nat, key: string): (found: Option<nat>)
    ensures found.Some? ==>
            found.value < |w.ledger| && w.ledger[found.value].account == account && w.ledger[found.value].key == key
    ensures found.None? ==> forall e :: 0 <= e < |w.ledger| ==>
            !(w.ledger[e].account == account && w.ledger[e].key == key)
  {
    var wanted := (e: Entry) => e.account == account && e.key == key;
    var found := Find(w.ledger, wanted);
    assert found.None? ==> forall e :: 0 <= e < |w.ledger| ==> !wanted(w.ledger[e]);
    found
  }

  /** The sign the CHECK constraint demands of an entry type. */
  predicate SignOk(source: Source, amount: int) {
    match source
    case FromTopup(_) => amount > 0
    case ForOrder(_) => amount < 0
    case ByAdmin(_) => amount != 0
  }

  /** InsertWalletLedgerEntry: the idempotency key is unique for each account. */
  function InsertEntry(w: Wallets, entry: Entry): Result<Wallets> {
    if !SignOk(entry.source, entry.amount) || entry.balanceAfter < 0
        || FindEntry(w, entry.account, entry.key).Some? then
      Err(Constraint)
    else
      Ok(w.(ledger := w.ledger + [entry]))
  }

  function FindTopupByKey(w: Wallets, user: nat, key: string): (found: Option<nat>)
    ensures found.Some? ==>
            found.value < |w.topups| && w.topups[found.value].user == user && w.topups[found.value].key == key
    ensures found.None? ==> forall t :: 0 <= t < |w.topups| ==> !(w.topups[t].user == user && w.topups[t].key == key)
  {
    var wanted := (t: Topup) => t.user == user && t.key == key;
    var found := Find(w.topups, wanted);
    assert found.None? ==> forall t :: 0 <= t < |w.topups| ==> !wanted(w.topups[t]);
    found
  }

  function FindTopupByReference(w: Wallets, reference: string): (found: Option<nat>)
    ensures found.Some? ==> found.value < |w.topups| && w.topups[found.value].reference == reference
    ensures found.None? ==> forall t :: 0 <= t < |w.topups| ==> w.topups[t].reference != reference
  {
    var wanted := (t: Topup) => t.reference == reference;
    var found := Find(w.topups, wanted);
    assert found.None? ==> forall t :: 0 <= t < |w.topups| ==> !wanted(w.topups[t]);
    found
  }

  /** CreateWalletTopup: ON CONFLICT DO NOTHING covers the reference and the
      (user, key) pair; the CHECK wants a positive amount. */
  function InsertTopup(w: Wallets, topup: Topup): Result<Option<Wallets>> {
    if topup.amount <= 0 then Err(Constraint)
    else if FindTopupByKey(w, topup.user, topup.key).Some? || FindTopupByReference(w, topup.reference).Some? then
      Ok(None)
    else Ok(Some(w.(topups := w.topups + [topup.(status := TopupPending, version := 1)])))
  }

  function MarkCredited(w: Wallets, topup: nat, version: nat): Result<Wallets> {
    if topup < |w.topups| && w.topups[topup].status == TopupPending && w.topups[topup].version == version then
      Ok(w.(topups := w.topups[topup := w.topups[topup].(status := TopupCredited, version := version + 1)]))
    else Err(NoRows)
  }

  function MarkInReview(w: Wallets, topup: nat): Result<Wallets> {
    if topup < |w.topups| && w.topups[topup].status in {TopupPending, TopupExpired} then
      Ok(w.(topups := w.topups[topup :=
                               w.topups[topup].(status := TopupInReview, version := w.topups[topup].version + 1)]))
    else Err(NoRows)
  }

  /** A balance update followed by its ledger entry, as every transaction that
      moves money performs them. */
  function Post(w: Wallets, account: nat, source: Source, amount: int, key: string): Result<Wallets> {
    var updated :- UpdateBalance(w, account, amount);
    InsertEntry(updated, Entry(account, source, amount, updated.accounts[account].balance, key))
  }

  // ---------- what every commit keeps ----------

  /** The sum of the entries of one account. */
  function SumOf(ledger: seq<Entry>, account: nat): int {
    if ledger == [] then 0
    else
      var last := ledger[|ledger| - 1];
      SumOf(ledger[..|ledger| - 1], account) + if last.account == account then last.amount else 0
  }

  datatype Kind = Topups | Orders | Adjustments

  function KindOf(source: Source): Kind {
    match source
    case FromTopup(_) => Topups
    case ForOrder(_) => Orders
    case ByAdmin(_) => Adjustments
  }

  /** The sum of the entries of one kind over all accounts. */
  function SumOfKind(ledger: seq<Entry>, kind: Kind): int {
    if ledger == [] then 0
    else
      var last := ledger[|ledger| - 1];
      SumOfKind(ledger[..|ledger| - 1], kind) + if KindOf(last.source) == kind then last.amount else 0
  }

  function TotalBalance(accounts: seq<Account>): int {
    if accounts == [] then 0 else TotalBalance(accounts[..|accounts| - 1]) + accounts[|accounts| - 1].balance
  }

  ghost predicate Credited(w: Wallets, topup: nat) {
    exists e :: 0 <= e < |w.ledger| && w.ledger[e].source == FromTopup(topup)
  }

  ghost predicate EntryOk(w: Wallets, e: nat)
    requires e < |w.ledger|
  {
    var entry := w.ledger[e];
    && entry.account < |w.accounts|
    && entry.balanceAfter == SumOf(w.ledger[..e + 1], entry.account)
    && entry.balanceAfter >= 0
    && (entry.source.FromTopup? ==>
          && entry.source.topup < |w.topups|
          && w.topups[entry.source.topup].status == TopupCredited
          && entry.amount == w.topups[entry.source.topup].amount
          && entry.account == w.topups[entry.source.topup].account)
  }

  ghost predicate TopupOk(w: Wallets, t: nat)
    requires t < |w.topups|
  {
    && w.topups[t].amount > 0
    && w.topups[t].account < |w.accounts|
    && (w.topups[t].status == TopupCredited ==> Credited(w, t))
  }

  ghost predicate WalletsOk(w: Wallets) {
    && (forall a :: 0 <= a < |w.accounts| ==> w.accounts[a].balance == SumOf(w.ledger, a) && w.accounts[a].balance >= 0)
    && (forall a, b :: 0 <= a < b < |w.accounts| ==> w.accounts[a].user != w.accounts[b].user)
    && (forall e :: 0 <= e < |w.ledger| ==> EntryOk(w, e))
    && (forall e, f :: 0 <= e < f < |w.ledger| && w.ledger[e].source == w.ledger[f].source ==>
        w.ledger[e].source.ByAdmin?)
    && (forall t :: 0 <= t < |w.topups| ==> TopupOk(w, t))
    && (forall t, u :: 0 <= t < u < |w.topups| ==> w.topups[t].reference != w.topups[u].reference)
    && (forall t, u :: 0 <= t < u < |w.topups| ==>
        !(w.topups[t].user == w.topups[u].user && w.topups[t].key == w.topups[u].key))
  }

  lemma SumGrows(ledger: seq<Entry>, entry: Entry, account: nat, kind: Kind)
    ensures SumOf(ledger + [entry], account) ==
            SumOf(ledger, account) + if entry.account == account then entry.amount else 0
    ensures SumOfKind(ledger + [entry], kind) ==
            SumOfKind(ledger, kind) + if KindOf(entry.source) == kind then entry.amount else 0
  {
    assert (ledger + [entry])[..|ledger|] == ledger;
  }

  lemma {:induction false} UnusedAccount(ledger: seq<Entry>, account: nat)
    requires forall e :: 0 <= e < |ledger| ==> ledger[e].account != account
    ensures SumOf(ledger, account) == 0
  {
    if ledger == [] {
    } else {
      UnusedAccount(ledger[..|ledger| - 1], account);
    }
  }

  /** Changing one balance moves the total by the difference. */
  lemma {:induction false} TotalMoves(accounts: seq<Account>, account: nat, row: Account)
    requires account < |accounts|
    ensures TotalBalance(accounts[account := row]) == TotalBalance(accounts) - accounts[account].balance + row.balance
  {
    var last := |accounts| - 1;
    var changed := accounts[account := row];
    if account == last {
      assert changed[..last] == accounts[..last];
    } else {
      assert changed[..last] == accounts[..last][account := row];
      TotalMoves(accounts[..last], account, row);
    }
  }

  /** Conservation: all balances together are what top-ups brought, what
      administrators adjusted, and the negative order debits. */
  lemma {:induction false} LedgerConservesMoney(w: Wallets)
    requires forall a :: 0 <= a < |w.accounts| ==> w.accounts[a].balance == SumOf(w.ledger, a)
    requires forall e :: 0 <= e < |w.ledger| ==> w.ledger[e].account < |w.accounts|
    ensures TotalBalance(w.accounts) ==
            SumOfKind(w.ledger, Topups) + SumOfKind(w.ledger, Adjustments) + SumOfKind(w.ledger, Orders)
    decreases |w.ledger|
  {
    if w.ledger == [] {
      AllZero(w.accounts);
    } else {
      var last := w.ledger[|w.ledger| - 1];
      var rest := w.ledger[..|w.ledger| - 1];
      var row := w.accounts[last.account];
      var before := w.accounts[last.account := row.(balance := row.balance - last.amount)];
      TotalMoves(w.accounts, last.account, row.(balance := row.balance - last.amount));
      LedgerConservesMoney(w.(accounts := before, ledger := rest));
    }
  }

  lemma {:induction false} AllZero(accounts: seq<Account>)
    requires forall a :: 0 <= a < |accounts| ==> accounts[a].balance == 0
    ensures TotalBalance(accounts) == 0
  {
    if accounts == [] {
    } else {
      AllZero(accounts[..|accounts| - 1]);
    }
  }

  /** Ensuring an account changes neither money nor intents. */
  lemma EnsureKeepsWallets(w: Wallets, user: nat)
    requires WalletsOk(w)
    ensures var (w', account) := EnsureAccount(w, user);
            && WalletsOk(w')
            && account < |w'.accounts| && w'.accounts[account].user == user
            && w'.ledger == w.ledger && w'.topups == w.topups
            && w.accounts <= w'.accounts
  {
    var (w', account) := EnsureAccount(w, user);
    forall e | 0 <= e < |w.ledger|
      ensures EntryOk(w', e) && w.ledger[e].account < |w.accounts|
    {
      assert EntryOk(w, e);
    }
    UnusedAccount(w.ledger, |w.accounts|);
    forall t | 0 <= t < |w.topups|
      ensures TopupOk(w', t)
    {
      assert TopupOk(w, t);
      if Credited(w, t) {
        var e :| 0 <= e < |w.ledger| && w.ledger[e].source == FromTopup(t);
        assert w'.ledger[e].source == FromTopup(t);
      }
    }
  }

  /** Posting an amount keeps every account equal to the sum of its entries, and
      the new entry records the new prefix sum. */
  lemma PostKeepsAccounts(w: Wallets, account: nat, source: Source, amount: int, key: string)
    requires WalletsOk(w)
    requires Post(w, account, source, amount, key).Ok?
    ensures var w' := Post(w, account, source, amount, key).value;
            && |w'.accounts| == |w.accounts|
            && (forall a :: 0 <= a < |w.accounts| ==> w'.accounts[a].user == w.accounts[a].user)
            && (forall a :: 0 <= a < |w.accounts| && a != account ==> w'.accounts[a] == w.accounts[a])
            && w'.accounts[account].balance == w.accounts[account].balance + amount
            && (forall a :: 0 <= a < |w'.accounts| ==>
                w'.accounts[a].balance == SumOf(w'.ledger, a) && w'.accounts[a].balance >= 0)
            && w'.ledger == w.ledger + [Entry(account, source, amount, w'.accounts[account].balance, key)]
            && w'.topups == w.topups
  {
    var w' := Post(w, account, source, amount, key).value;
    forall a | 0 <= a < |w'.accounts|
      ensures w'.accounts[a].balance == SumOf(w'.ledger, a) && w'.accounts[a].balance >= 0
    {
      SumGrows(w.ledger, w'.ledger[|w.ledger|], a, Topups);
    }
  }

  /** The ledger is append-only: what held of an old entry still holds. */
  lemma OldEntriesKept(w: Wallets, w': Wallets, e: nat)
    requires e < |w.ledger| && EntryOk(w, e)
    requires w.ledger <= w'.ledger
    requires |w.accounts| <= |w'.accounts|
    requires |w.topups| <= |w'.topups|
    requires forall t :: 0 <= t < |w.topups| && w.topups[t].status == TopupCredited ==> w'.topups[t] == w.topups[t]
    ensures EntryOk(w', e)
  {
    assert w'.ledger[..e + 1] == w.ledger[..e + 1];
  }

  lemma CreditKept(w: Wallets, w': Wallets, t: nat)
    requires Credited(w, t) && w.ledger <= w'.ledger
    ensures Credited(w', t)
  {
    var e :| 0 <= e < |w.ledger| && w.ledger[e].source == FromTopup(t);
    assert w'.ledger[e].source == FromTopup(t);
  }

  /** Posting for a new order or by an administrator keeps the wallets sound. */
  lemma PostKeepsWallets(w: Wallets, account: nat, source: Source, amount: int, key: string)
    requires WalletsOk(w)
    requires Post(w, account, source, amount, key).Ok?
    requires !source.FromTopup?
    requires source.ForOrder? ==> forall e :: 0 <= e < |w.ledger| ==> w.ledger[e].source != source
    ensures WalletsOk(Post(w, account, source, amount, key).value)
  {
    PostKeepsAccounts(w, account, source, amount, key);
    var w' := Post(w, account, source, amount, key).value;
    forall e | 0 <= e < |w'.ledger|
      ensures EntryOk(w', e)
    {
      if e < |w.ledger| {
        OldEntriesKept(w, w', e);
      } else {
        assert w'.ledger[..e + 1] == w'.ledger;
      }
    }
    forall t | 0 <= t < |w'.topups|
      ensures TopupOk(w', t)
    {
      assert TopupOk(w, t);
      if Credited(w, t) {
        CreditKept(w, w', t);
      }
    }
  }

  /** Crediting a pending top-up posts its exact amount to its own account, once. */
  lemma CreditKeepsWallets(w: Wallets, topup: nat, key: string)
    requires WalletsOk(w)
    requires topup < |w.topups| && w.topups[topup].status == TopupPending
    requires Post(w, w.topups[topup].account, FromTopup(topup), w.topups[topup].amount, key).Ok?
    ensures var w1 := Post(w, w.topups[topup].account, FromTopup(topup), w.topups[topup].amount, key).value;
            && MarkCredited(w1, topup, w.topups[topup].version).Ok?
            && WalletsOk(MarkCredited(w1, topup, w.topups[topup].version).value)
  {
    var row := w.topups[topup];
    PostKeepsAccounts(w, row.account, FromTopup(topup), row.amount, key);
    var w1 := Post(w, row.account, FromTopup(topup), row.amount, key).value;
    var w' := MarkCredited(w1, topup, row.version).value;
    forall e | 0 <= e < |w.ledger|
      ensures w.ledger[e].source != FromTopup(topup)
    {
      assert EntryOk(w, e);
    }
    forall e | 0 <= e < |w'.ledger|
      ensures EntryOk(w', e)
    {
      if e < |w.ledger| {
        OldEntriesKept(w, w', e);
      } else {
        assert w'.ledger[..e + 1] == w'.ledger;
      }
    }
    forall t | 0 <= t < |w'.topups|
      ensures TopupOk(w', t)
    {
      assert TopupOk(w, t);
      if t == topup {
        assert w'.ledger[|w.ledger|].source == FromTopup(topup);
      } else if Credited(w, t) {
        CreditKept(w, w', t);
      }
    }
    TopupNamesKept(w, w');
  }

  lemma TopupNamesKept(w: Wallets, w': Wallets)
    requires |w'.topups| == |w.topups|
    requires forall t :: 0 <= t < |w.topups| ==>
               w'.topups[t].user == w.topups[t].user && w'.topups[t].key == w.topups[t].key
                   && w'.topups[t].reference == w.topups[t].reference
    requires WalletsOk(w)
    ensures forall t, u :: 0 <= t < u < |w'.topups| ==> w'.topups[t].reference != w'.topups[u].reference
    ensures forall t, u :: 0 <= t < u < |w'.topups| ==>
            !(w'.topups[t].user == w'.topups[u].user && w'.topups[t].key == w'.topups[u].key)
  {
  }

  lemma ReviewKeepsWallets(w: Wallets, topup: nat)
    requires WalletsOk(w)
    requires MarkInReview(w, topup).Ok?
    ensures WalletsOk(MarkInReview(w, topup).value)
  {
    var w' := MarkInReview(w, topup).value;
    forall e | 0 <= e < |w'.ledger|
      ensures EntryOk(w', e)
    {
      assert EntryOk(w, e);
      OldEntriesKept(w, w', e);
    }
    forall t | 0 <= t < |w'.topups|
      ensures TopupOk(w', t)
    {
      assert TopupOk(w, t);
      if Credited(w, t) {
        CreditKept(w, w', t);
      }
    }
    TopupNamesKept(w, w');
  }

  lemma InsertTopupKeepsWallets(w: Wallets, topup: Topup)
    requires WalletsOk(w)
    requires topup.account < |w.accounts|
    requires InsertTopup(w, topup).Ok? && InsertTopup(w, topup).value.Some?
    ensures WalletsOk(InsertTopup(w, topup).value.value)
  {
    var w' := InsertTopup(w, topup).value.value;
    forall e | 0 <= e < |w'.ledger|
      ensures EntryOk(w', e)
    {
      OldEntriesKept(w, w', e);
    }
    forall t | 0 <= t < |w'.topups|
      ensures TopupOk(w', t)
    {
      if t < |w.topups| {
        assert TopupOk(w, t);
        if Credited(w, t) {
          CreditKept(w, w', t);
        }
      }
    }
  }
}
