/** The paging loop of one reconciliation worker, as it runs when nobody else
    takes its lease: ingest a page, then move the cursor past it, while requests,
    ingestions and statements fail. */
module Reconciliation {
  import opened Results
  import opened ProviderCursor

  /** The checkpoint row and the ingested transactions of one account. */
  class CheckpointStore {
    var row: Checkpoint
    var ingested: set<Txn>

    constructor ()
      ensures row == Checkpoint("", "", 0, None, 0, 1) && ingested == {}
    {
      row := Checkpoint("", "", 0, None, 0, 1);
      ingested := {};
    }

    method Claim(owner: string, until: int, now: int) returns (r: Result<Checkpoint>)
      modifies this`row
      ensures r == ClaimRow(old(row), owner, until, now)
      ensures row == if r.Ok? then r.value else old(row)
    {
      if row.owner.Some? && row.leaseUntil > now {
        return Err(NoRows);
      }
      row := row.(owner := Some(owner), leaseUntil := until, version := row.version + 1);
      r := Ok(row);
    }

    method Advance(held: Checkpoint, cursor: string, lastTransaction: string, lastOccurredAt: int)
      returns (r: Result<Checkpoint>)
      modifies this`row
      ensures r == AdvanceRow(old(row), held, cursor, lastTransaction, lastOccurredAt)
      ensures row == if r.Ok? then r.value else old(row)
    {
      if !Guarded(row, held) {
        return Err(NoRows);
      }
      row := row.(cursor := Trim(cursor), lastTransaction := Trim(lastTransaction), lastOccurredAt := lastOccurredAt);
      row := row.(version := row.version + 1);
      r := Ok(row);
    }

    /** Complete and Fail give the lease back. */
    method GiveBack(held: Checkpoint) returns (ok: bool)
      modifies this`row
      ensures ok == ReleaseRow(old(row), held).Ok?
      ensures row == if ok then ReleaseRow(old(row), held).value else old(row)
    {
      ok := Guarded(row, held);
      if ok {
        row := row.(owner := None, leaseUntil := 0, version := row.version + 1);
      }
    }

    method Ingest(txn: Txn)
      modifies this`ingested
      ensures ingested == old(ingested) + {txn}
    {
      ingested := ingested + {txn};
    }
  }

  /** How a run ends. A page fails when it cannot be fetched, is malformed, or holds a
      transaction that cannot be ingested. */
  datatype Outcome = Leased | ClaimFailed | PageFailed | AdvanceFailed | Exhausted | ReachedEnd

  /** What the network does to one run, page by page: which requests fail, and what
      happens to each ingestion and to each statement on the checkpoint. */
  datatype Faults = Faults(
    claim: Fault, request: nat -> bool, ingestion: (nat, nat) -> Fault, advance: nat -> Fault, complete: Fault,
        fail: Fault)

  predicate PageFails(p: Provider, faults: Faults, cursor: string, n: nat) {
    var page := p(Trim(cursor));
    || faults.request(n) || Malformed(page, cursor)
    || exists k :: 0 <= k < |page.transactions| && faults.ingestion(n, k) != Fine
  }

  /** How the loop ends when it asks for its n-th page with this cursor, and how many
      pages it has passed by then. */
  function Course(p: Provider, faults: Faults, cursor: string, n: nat, maxPages: nat): (course: (Outcome, nat))
    requires n <= maxPages
    ensures course.0 in {PageFailed, AdvanceFailed, Exhausted, ReachedEnd} && n <= course.1 <= maxPages
    decreases maxPages - n
  {
    var page := p(Trim(cursor));
    if n == maxPages then (Exhausted, n)
    else if PageFails(p, faults, cursor, n) then (PageFailed, n)
    else if faults.advance(n) != Fine then (AdvanceFailed, n)
    else if !page.hasMore then (ReachedEnd, n + 1)
    else Course(p, faults, NextCursor(page, cursor), n + 1, maxPages)
  }

  /** The lease of a claimed run is given back if and only if no advance failed and one
      of the statements that give it back commits. */
  predicate GivesBack(outcome: Outcome, faults: Faults) {
    match outcome
    case PageFailed => faults.fail != Fails
    case Exhausted => faults.complete != Fails || faults.fail != Fails
    case ReachedEnd => faults.complete != Fails || faults.fail != Fails
    case _ => false
  }

  /** One empty page whose advance fails: the lease stays. */
  lemma FailedAdvanceIsNotGivenBack(p: Provider, faults: Faults, maxPages: nat)
    requires maxPages > 0 && p("") == Page([], "", false)
    requires !faults.request(0) && faults.advance(0) != Fine
    ensures Course(p, faults, "", 0, maxPages) == (AdvanceFailed, 0)
    ensures !GivesBack(Course(p, faults, "", 0, maxPages).0, faults)
  {
    assert Trim("") == "";
  }

  /** reconcileAccount, while nobody else takes its lease. The run follows its course:
      it passes whole pages only, at most maxPages of them, and stands before the
      first page it could not finish, or after a page whose advance committed without
      an answer. A lost claim and a failed advance leave the lease in place. */
  method ReconcileAccount(store: CheckpointStore, p: Provider, faults: Faults, owner: string, now: int, until: int,
                          maxPages: nat, ghost before: nat)
    returns (outcome: Outcome, pages: nat, fetched: nat, ghost after: nat)
    requires Stands(p, store.row, store.ingested, before)
    modifies store
    ensures old(store.ingested) <= store.ingested
    ensures Stands(p, store.row, store.ingested, after)
    ensures store.row.lastOccurredAt >= old(store.row).lastOccurredAt
    ensures var free := old(store.row).owner.None? || old(store.row).leaseUntil <= now;
            && (outcome == ClaimFailed <==> faults.claim == Fails || faults.claim == Lost)
            && (outcome == Leased <==> faults.claim == Fine && !free)
            && (outcome == ClaimFailed && faults.claim == Lost && free ==> store.row.owner == Some(owner))
            && (outcome == Leased || (outcome == ClaimFailed && !(faults.claim == Lost && free)) ==>
                store.row == old(store.row))
    ensures outcome in {Leased, ClaimFailed} ==> store.ingested == old(store.ingested) && after == before && pages == 0
    ensures outcome !in {Leased, ClaimFailed} ==>
              && Follows(Course(p, faults, old(store.row).cursor, 0, maxPages), faults, before, outcome, pages, after)
              && store.row.owner == (if GivesBack(outcome, faults) then None else Some(owner))
  {
    after := before;
    pages, fetched := 0, 0;
    if faults.claim == Fails {
      return ClaimFailed, 0, 0, before;
    }
    var claim := store.Claim(owner, until, now);
    if faults.claim == Lost {
      return ClaimFailed, 0, 0, before;
    }
    if claim.Err? {
      return Leased, 0, 0, before;
    }
    StoredIsTrimmed(p, before);
    var held: Option<Checkpoint>;
    outcome, pages, fetched, held, after := PassPages(store, p, faults, claim.value, maxPages, before);
    var completed := false;
    if outcome in {Exhausted, ReachedEnd} {
      completed := TryGiveBack(store, held.value, faults.complete);
    }
    if !completed && held.Some? {
      var failed := TryGiveBack(store, held.value, faults.fail);
    }
  }

  /** The paging loop. The checkpoint it ends with is the one to give back; after a
      failed advance there is none. */
  method PassPages(store: CheckpointStore, p: Provider, faults: Faults, claimed: Checkpoint, maxPages: nat,
                   ghost before: nat)
    returns (outcome: Outcome, pages: nat, fetched: nat, last: Option<Checkpoint>, ghost after: nat)
    requires store.row == claimed && claimed.owner.Some?
    requires Stands(p, claimed, store.ingested, before) && Trim(claimed.cursor) == claimed.cursor
    modifies store
    ensures old(store.ingested) <= store.ingested
    ensures Stands(p, store.row, store.ingested, after)
    ensures store.row.lastOccurredAt >= claimed.lastOccurredAt && store.row.owner == claimed.owner
    ensures last.None? <==> outcome == AdvanceFailed
    ensures last.Some? ==> last.value == store.row
    ensures Follows(Course(p, faults, claimed.cursor, 0, maxPages), faults, before, outcome, pages, after)
  {
    var held := claimed;
    var cursor := held.cursor;
    pages, fetched, after := 0, 0, before;
    ghost var course := Course(p, faults, cursor, 0, maxPages);
    while pages < maxPages
      invariant 0 <= pages <= maxPages && after == before + pages
      invariant store.row == held && held.owner == claimed.owner && held.lastOccurredAt >= claimed.lastOccurredAt
      invariant Stands(p, held, store.ingested, after) && Trim(cursor) == held.cursor
      invariant old(store.ingested) <= store.ingested
      invariant course == Course(p, faults, cursor, pages, maxPages)
      decreases maxPages - pages
    {
      ghost var n := pages;
      var end, next, got, counted := Turn(store, p, faults, pages, maxPages, held, cursor, after);
      fetched := fetched + got;
      pages := if counted then pages + 1 else pages;
      if end.Some? {
        outcome := end.value;
        last := if outcome == AdvanceFailed then None else Some(store.row);
        after := StandsAfter(outcome, faults, n, after);
        return;
      }
      held := store.row;
      cursor := next;
      after := after + 1;
    }
    outcome, last := Exhausted, Some(held);
  }

  /** A run ended as its course says: every passed page counts, and so may the one it
      failed at. */
  ghost predicate Follows(course: (Outcome, nat), faults: Faults, before: nat, outcome: Outcome, pages: nat,
                          after: nat)
  {
    var n := course.1;
    && outcome == course.0
    && after == before + n + (if outcome == AdvanceFailed && faults.advance(n) == Lost then 1 else 0)
    && n <= pages <= n + 1 && (outcome in {Exhausted, ReachedEnd} ==> pages == n)
  }

  /** How many pages the cursor has passed when the n-th page of a run ends it. */
  function StandsAfter(end: Outcome, faults: Faults, n: nat, passed: nat): nat {
    if end == ReachedEnd || (end == AdvanceFailed && faults.advance(n) == Lost) then passed + 1 else passed
  }

  /** One turn of the loop: it ends the run, or passes the page and goes on with the
      next cursor. A page counts once it turned out to be well formed. */
  method Turn(store: CheckpointStore, p: Provider, faults: Faults, n: nat, maxPages: nat, held: Checkpoint,
              cursor: string, ghost m: nat)
    returns (end: Option<Outcome>, next: string, got: nat, counted: bool)
    requires n < maxPages
    requires store.row == held && held.owner.Some? && Stands(p, held, store.ingested, m) && Trim(cursor) == held.cursor
    modifies store
    ensures old(store.ingested) <= store.ingested
    ensures store.row.owner == held.owner && store.row.lastOccurredAt >= held.lastOccurredAt
    ensures end.None? ==>
              && counted && Trim(next) == store.row.cursor && Stands(p, store.row, store.ingested, m + 1)
              && Course(p, faults, cursor, n, maxPages) == Course(p, faults, next, n + 1, maxPages)
    ensures end.Some? ==>
              && end.value in {PageFailed, AdvanceFailed, ReachedEnd}
              && Course(p, faults, cursor, n, maxPages) == (end.value, if end.value == ReachedEnd then n + 1 else n)
              && Stands(p, store.row, store.ingested, StandsAfter(end.value, faults, n, m))
              && (end.value == ReachedEnd ==> counted)
  {
    var page := p(Trim(cursor));
    next := NextCursor(page, cursor);
    if faults.request(n) || Malformed(page, cursor) {
      return Some(PageFailed), next, 0, false;
    }
    var result := PassPage(store, p, faults, n, page, held, cursor, m);
    end := match result
      case NotIngested => Some(PageFailed)
      case NotAdvanced => Some(AdvanceFailed)
      case Passed(_) => if page.hasMore then None else Some(ReachedEnd);
    got, counted := |page.transactions|, true;
  }

  datatype PageResult = Passed(row: Checkpoint) | NotIngested | NotAdvanced

  /** The row stands after n pages of the chain, all of them ingested. */
  ghost predicate Stands(p: Provider, row: Checkpoint, ingested: set<Txn>, n: nat) {
    row.cursor == Walk(p, n) && Covered(p, n, ingested)
  }

  /** One page: ingest it completely, then advance the checkpoint past it. */
  method PassPage(store: CheckpointStore, p: Provider, faults: Faults, n: nat, page: Page, held: Checkpoint,
                  cursor: string, ghost m: nat)
    returns (result: PageResult)
    requires store.row == held && held.owner.Some? && Stands(p, held, store.ingested, m)
    requires Trim(cursor) == held.cursor && page == p(held.cursor)
    modifies store
    ensures old(store.ingested) <= store.ingested
    ensures store.row.owner == held.owner && store.row.lastOccurredAt >= held.lastOccurredAt
    ensures result.NotIngested? <==> exists k :: 0 <= k < |page.transactions| && faults.ingestion(n, k) != Fine
    ensures result.NotAdvanced? ==> faults.advance(n) != Fine
    ensures result.Passed? ==>
            faults.advance(n) == Fine && store.row == result.row && store.row.cursor == Trim(NextCursor(page, cursor))
    ensures result.NotIngested? ==> store.row == held
    ensures var moved := result.Passed? || (result.NotAdvanced? && faults.advance(n) == Lost);
            Stands(p, store.row, store.ingested, if moved then m + 1 else m)
  {
    var ok, lastTransaction, lastOccurredAt := IngestPage(store, faults, n, page, held);
    CoveredGrows(p, m, old(store.ingested), store.ingested);
    if !ok {
      return NotIngested;
    }
    NextIsWalked(p, m, page, cursor, store.ingested);
    var advanced := TryAdvance(store, held, NextCursor(page, cursor), lastTransaction, lastOccurredAt,
                               faults.advance(n));
    result := if advanced.Some? then Passed(advanced.value) else NotAdvanced;
  }

  /** The advance under a fault. What it returns on an error is the zero checkpoint,
      which matches no row any more. */
  method TryAdvance(store: CheckpointStore, held: Checkpoint, cursor: string, lastTransaction: string,
                    lastOccurredAt: int, fault: Fault)
    returns (advanced: Option<Checkpoint>)
    requires store.row == held && held.owner.Some?
    modifies store`row
    ensures advanced.Some? <==> fault == Fine
    ensures advanced.Some? ==> advanced.value == store.row
    ensures fault == Fails ==> store.row == held
    ensures fault != Fails ==> AdvanceRow(held, held, cursor, lastTransaction, lastOccurredAt) == Ok(store.row)
  {
    if fault == Fails {
      return None;
    }
    var r := store.Advance(held, cursor, lastTransaction, lastOccurredAt);
    advanced := if fault == Fine then Some(r.value) else None;
  }

  method TryGiveBack(store: CheckpointStore, held: Checkpoint, fault: Fault) returns (done: bool)
    modifies store`row
    ensures done == (fault == Fine && ReleaseRow(old(store.row), held).Ok?)
    ensures store.row ==
            if fault != Fails && ReleaseRow(old(store.row), held).Ok? then ReleaseRow(old(store.row), held).value
              else old(store.row)
  {
    if fault == Fails {
      return false;
    }
    var ok := store.GiveBack(held);
    done := ok && fault == Fine;
  }

  /** The inner loop: every transaction of the page, in order, until one fails; an
      ingestion whose answer is lost is stored all the same. */
  method IngestPage(store: CheckpointStore, faults: Faults, n: nat, page: Page, held: Checkpoint)
    returns (ok: bool, lastTransaction: string, lastOccurredAt: int)
    modifies store`ingested
    ensures old(store.ingested) <= store.ingested
    ensures ok <==> forall k :: 0 <= k < |page.transactions| ==> faults.ingestion(n, k) == Fine
    ensures ok ==> PageIn(page, store.ingested)
    ensures lastOccurredAt >= held.lastOccurredAt
    ensures ok ==> forall k :: 0 <= k < |page.transactions| ==> page.transactions[k].occurredAt <= lastOccurredAt
    ensures ok && page.transactions != [] ==> lastTransaction == page.transactions[|page.transactions| - 1].id
  {
    ok := true;
    lastTransaction := held.lastTransaction;
    lastOccurredAt := held.lastOccurredAt;
    var k := 0;
    while k < |page.transactions|
      invariant 0 <= k <= |page.transactions|
      invariant old(store.ingested) <= store.ingested
      invariant forall i :: 0 <= i < k ==> page.transactions[i] in store.ingested && faults.ingestion(n, i) == Fine
      invariant forall i :: 0 <= i < k ==> page.transactions[i].occurredAt <= lastOccurredAt
      invariant lastOccurredAt >= held.lastOccurredAt
      invariant k > 0 ==> lastTransaction == page.transactions[k - 1].id
    {
      var txn := page.transactions[k];
      if faults.ingestion(n, k) != Fails {
        store.Ingest(txn);
      }
      if faults.ingestion(n, k) != Fine {
        ok := false;
        return;
      }
      lastTransaction := txn.id;
      if txn.occurredAt > lastOccurredAt {
        lastOccurredAt := txn.occurredAt;
      }
      k := k + 1;
    }
  }

  lemma CoveredGrows(p: Provider, n: nat, small: set<Txn>, large: set<Txn>)
    requires small <= large
    requires Covered(p, n, small)
    ensures Covered(p, n, large)
  {
    forall i: nat | i < n
      ensures PageIn(p(Walk(p, i)), large)
    {
      assert PageIn(p(Walk(p, i)), small);
    }
  }
}
