/** The leased, version-checked cursor of a provider account: any number of
    reconciliation workers, crashes and lease expiries lose no page. */
module ProviderCursor {
  import opened Results
  import opened Text

  /** One provider transaction, as far as the cursor is concerned. */
  datatype Txn = Txn(id: string, occurredAt: int)

  datatype Page = Page(transactions: seq<Txn>, next: string, hasMore: bool)

  /** A fixed chain of pages. The provider reads a cursor without its surrounding
      blanks, which is also how the cursor is stored. */
  type Provider = string -> Page

  /** What strings.TrimSpace cuts away. */
  predicate Blank(c: char) {
    WhiteSpace(c as int)
  }

  function TrimLeft(s: string): string {
    if s != "" && Blank(s[0]) then TrimLeft(s[1..]) else s
  }

  function TrimRight(s: string): string {
    if s != "" && Blank(s[|s| - 1]) then TrimRight(s[..|s| - 1]) else s
  }

  /** optionalText: the trimmed text, where the empty text stands for NULL. */
  function Trim(s: string): string {
    TrimRight(TrimLeft(s))
  }

  datatype Checkpoint = Checkpoint(
    cursor: string, lastTransaction: string, lastOccurredAt: int,
    owner: Option<string>, leaseUntil: int, version: nat)

  // ---------- the guarded statements ----------

  /** ClaimPaymentProviderCheckpoint. */
  function ClaimRow(row: Checkpoint, owner: string, until: int, now: int): Result<Checkpoint> {
    if row.owner.None? || row.leaseUntil <= now then
      Ok(row.(owner := Some(owner), leaseUntil := until, version := row.version + 1))
    else Err(NoRows)
  }

  predicate Guarded(row: Checkpoint, held: Checkpoint) {
    row.version == held.version && row.owner.Some? && row.owner == held.owner
  }

  /** AdvancePaymentProviderCheckpoint. */
  function AdvanceRow(row: Checkpoint, held: Checkpoint, cursor: string, lastTransaction: string,
                      lastOccurredAt: int): Result<Checkpoint>
  {
    if Guarded(row, held) then
      Ok(row.(cursor := Trim(cursor), lastTransaction := Trim(lastTransaction), lastOccurredAt := lastOccurredAt,
              version := row.version + 1))
    else Err(NoRows)
  }

  /** CompletePaymentProviderCheckpoint and RecordPaymentProviderCheckpointFailure:
      both give the lease back. */
  function ReleaseRow(row: Checkpoint, held: Checkpoint): Result<Checkpoint> {
    if Guarded(row, held) then Ok(row.(owner := None, leaseUntil := 0, version := row.version + 1)) else Err(NoRows)
  }

  // ---------- one worker ----------

  /** What the loop carries for the page at hand: how many of its transactions are
      ingested, and the last id and latest time seen. */
  datatype Progress = Progress(page: Page, done: nat, lastTransaction: string, lastOccurredAt: int)

  /** held is the row as the worker last read it; cursor is the one it asks with. */
  datatype Pc =
    | Away
    | Holding(held: Checkpoint, cursor: string, pages: nat)
    | Ingesting(held: Checkpoint, cursor: string, pages: nat, progress: Progress)
    | Completing(held: Checkpoint)
    | Failing(last: Option<Checkpoint>)
    | Gone

  /** A page that claims more but gives no way forward. */
  predicate Malformed(page: Page, cursor: string) {
    page.hasMore && (Trim(page.next) == "" || page.next == cursor)
  }

  function NextCursor(page: Page, cursor: string): string {
    if !page.hasMore && page.next == "" then cursor else page.next
  }

  function Later(a: int, b: int): int {
    if b > a then b else a
  }

  // ---------- the world ----------

  /** steps counts the pages the stored cursor has passed; no statement reads it. */
  datatype World = World(row: Checkpoint, ingested: set<Txn>, pcs: map<string, Pc>, clock: int, steps: nat)

  /** Where an event names a seen flag, false means that the statement committed
      but its worker got an error. A statement that fails commits nothing. */
  datatype Event =
    | Tick(now: int)
    | Spawn(w: string)
    | Crash(w: string)
    | Claim(w: string, until: int, seen: bool)
    | Fetch(w: string)
    | FetchFails(w: string)
    | Ingest(w: string)
    | IngestFails(w: string, stored: bool)
    | Advance(w: string, seen: bool)
    | Complete(w: string, seen: bool)
    | Release(w: string)
    | StatementFails(w: string)

  function Put(x: World, w: string, pc: Pc): World {
    x.(pcs := x.pcs[w := pc])
  }

  function Next(x: World, p: Provider, maxPages: nat, e: Event): World {
    match e
    case Tick(now) => if now >= x.clock then x.(clock := now) else x
    case Spawn(w) => if w in x.pcs then x else Put(x, w, Away)
    case _ => if e.w in x.pcs then NextOf(x, p, maxPages, e, x.pcs[e.w]) else x
  }

  /** Where a worker goes after its advance committed. */
  function AfterAdvance(pc: Pc, row: Checkpoint, seen: bool): Pc
    requires pc.Ingesting?
  {
    if !seen then Failing(None)
    else if !pc.progress.page.hasMore then Completing(row)
    else Holding(row, NextCursor(pc.progress.page, pc.cursor), if pc.pages > 0 then pc.pages - 1 else 0)
  }

  function AdvanceStep(x: World, w: string, pc: Pc, seen: bool): World
    requires pc.Ingesting?
  {
    var g := pc.progress;
    match AdvanceRow(x.row, pc.held, NextCursor(g.page, pc.cursor), g.lastTransaction, g.lastOccurredAt)
    case Err(_) => Put(x, w, Failing(None))
    case Ok(row) => Put(x.(row := row, steps := x.steps + 1), w, AfterAdvance(pc, row, seen))
  }

  function NextOf(x: World, p: Provider, maxPages: nat, e: Event, pc: Pc): World
    requires !e.Tick? && !e.Spawn?
  {
    match e
    case Crash(w) => Put(x, w, Gone)
    case Claim(w, until, seen) =>
      if !pc.Away? then x
      else
        (match ClaimRow(x.row, w, until, x.clock)
         case Err(_) => x
         case Ok(row) => Put(x.(row := row), w, if seen then Holding(row, row.cursor, maxPages) else Away))
    case Fetch(w) =>
      if !pc.Holding? then x
      else if pc.pages == 0 then Put(x, w, Completing(pc.held))
      else
        var page := p(Trim(pc.cursor));
        Put(x, w, if Malformed(page, pc.cursor) then Failing(Some(pc.held))
                  else Ingesting(pc.held, pc.cursor, pc.pages,
                                 Progress(page, 0, pc.held.lastTransaction, pc.held.lastOccurredAt)))
    case FetchFails(w) => if pc.Holding? then Put(x, w, Failing(Some(pc.held))) else x
    case Ingest(w) =>
      if pc.Ingesting? && pc.progress.done < |pc.progress.page.transactions| then
        var txn := pc.progress.page.transactions[pc.progress.done];
        var progress := Progress(pc.progress.page, pc.progress.done + 1, txn.id,
                                 Later(pc.progress.lastOccurredAt, txn.occurredAt));
        Put(x.(ingested := x.ingested + {txn}), w, pc.(progress := progress))
      else x
    case IngestFails(w, stored) =>
      if pc.Ingesting? && pc.progress.done < |pc.progress.page.transactions| then
        var txn := pc.progress.page.transactions[pc.progress.done];
        Put(x.(ingested := if stored then x.ingested + {txn} else x.ingested), w, Failing(Some(pc.held)))
      else x
    case Advance(w, seen) =>
      if pc.Ingesting? && pc.progress.done == |pc.progress.page.transactions| then AdvanceStep(x, w, pc, seen) else x
    case Complete(w, seen) =>
      if !pc.Completing? then x
      else
        (match ReleaseRow(x.row, pc.held)
         case Err(_) => Put(x, w, Failing(Some(pc.held)))
         case Ok(row) => Put(x.(row := row), w, if seen then Away else Failing(Some(pc.held))))
    case Release(w) =>
      if !pc.Failing? then x
      else if pc.last.None? then Put(x, w, Away)
      else
        (match ReleaseRow(x.row, pc.last.value)
         case Err(_) => Put(x, w, Away)
         case Ok(row) => Put(x.(row := row), w, Away))
    case StatementFails(w) => Put(x, w, AfterFailure(pc))
  }

  /** Where a worker goes when its statement fails. After an advance it has lost the
      row it would give the lease back with. */
  function AfterFailure(pc: Pc): Pc {
    match pc
    case Ingesting(held, _, _, g) => if g.done == |g.page.transactions| then Failing(None) else Failing(Some(held))
    case Completing(held) => Failing(Some(held))
    case Failing(_) => Away
    case _ => pc
  }

  function Runs(x: World, p: Provider, maxPages: nat, events: seq<Event>): World
    decreases |events|
  {
    if events == [] then x else Runs(Next(x, p, maxPages, events[0]), p, maxPages, events[1..])
  }

  // ---------- the page chain ----------

  /** The cursor after n pages of the chain. */
  function Walk(p: Provider, n: nat): string {
    if n == 0 then "" else Trim(NextCursor(p(Walk(p, n - 1)), Walk(p, n - 1)))
  }

  /** Every transaction of a page is ingested. */
  ghost predicate PageIn(page: Page, ingested: set<Txn>) {
    forall k :: 0 <= k < |page.transactions| ==> page.transactions[k] in ingested
  }

  /** Every transaction on the first n pages of the chain is ingested. */
  ghost predicate Covered(p: Provider, n: nat, ingested: set<Txn>) {
    forall i: nat :: i < n ==> PageIn(p(Walk(p, i)), ingested)
  }

  lemma {:induction false} TrimRightKeepsLeft(s: string)
    requires s == "" || !Blank(s[0])
    ensures TrimRight(s) == "" || !Blank(TrimRight(s)[0])
    ensures TrimRight(TrimRight(s)) == TrimRight(s)
  {
    if s != "" && Blank(s[|s| - 1]) {
      TrimRightKeepsLeft(s[..|s| - 1]);
    }
  }

  lemma {:induction false} TrimLeftStarts(s: string)
    ensures TrimLeft(s) == "" || !Blank(TrimLeft(s)[0])
  {
    if s != "" && Blank(s[0]) {
      TrimLeftStarts(s[1..]);
    }
  }

  /** Storing a stored cursor again changes nothing. */
  lemma TrimTwice(s: string)
    ensures Trim(Trim(s)) == Trim(s)
  {
    TrimLeftStarts(s);
    TrimRightKeepsLeft(TrimLeft(s));
    assert TrimLeft(Trim(s)) == Trim(s);
  }

  // ---------- what the statements write ----------

  /** Trimming cuts off blanks at both ends, and leaves none there. */
  lemma TrimIsExact(s: string) returns (left: string, right: string)
    ensures s == left + Trim(s) + right
    ensures forall c :: c in left + right ==> Blank(c)
    ensures Trim(s) != "" ==> !Blank(Trim(s)[0]) && !Blank(Trim(s)[|Trim(s)| - 1])
  {
    left := LeftBlanks(s);
    right := RightBlanks(TrimLeft(s));
    TrimLeftStarts(s);
    TrimRightKeepsLeft(TrimLeft(s));
  }

  lemma {:induction false} LeftBlanks(s: string) returns (left: string)
    ensures s == left + TrimLeft(s) && forall c :: c in left ==> Blank(c)
  {
    if s == "" || !Blank(s[0]) {
      left := "";
    } else {
      var rest := LeftBlanks(s[1..]);
      left := [s[0]] + rest;
      calc {
        left + TrimLeft(s);
        [s[0]] + (rest + TrimLeft(s[1..]));
        [s[0]] + s[1..];
        s;
      }
    }
  }

  lemma {:induction false} RightBlanks(s: string) returns (right: string)
    ensures s == TrimRight(s) + right && forall c :: c in right ==> Blank(c)
    ensures TrimRight(s) != "" ==> !Blank(TrimRight(s)[|TrimRight(s)| - 1])
  {
    if s == "" || !Blank(s[|s| - 1]) {
      right := "";
    } else {
      var rest := RightBlanks(s[..|s| - 1]);
      right := rest + [s[|s| - 1]];
      assert s == s[..|s| - 1] + [s[|s| - 1]];
    }
  }

  /** A lease can be taken if nobody has it or it ran out. Only its holder, at the
      version that was read, moves the cursor or gives the lease back. */
  lemma LeaseIsExact(row: Checkpoint, held: Checkpoint, owner: string, until: int, now: int, cursor: string, id: string,
                     at: int)
    ensures ClaimRow(row, owner, until, now) ==
            if row.owner.Some? && row.leaseUntil > now then Err(NoRows)
            else Ok(Checkpoint(row.cursor, row.lastTransaction, row.lastOccurredAt, Some(owner), until,
                               row.version + 1))
    ensures var holds := row.version == held.version && row.owner.Some? && row.owner == held.owner;
            && AdvanceRow(row, held, cursor, id, at) ==
               (if holds then Ok(Checkpoint(Trim(cursor), Trim(id), at, row.owner, row.leaseUntil, row.version + 1))
                else Err(NoRows))
            && ReleaseRow(row, held) ==
               if holds then
                 Ok(Checkpoint(row.cursor, row.lastTransaction, row.lastOccurredAt, None, 0, row.version + 1))
               else Err(NoRows)
  {
  }

  /** Each step of the chain goes where the page says; only the last page may say
      nothing, and then the chain stands. */
  lemma ChainFollowsItsPages(p: Provider, n: nat)
    ensures var page := p(Walk(p, n));
            Walk(p, n + 1) == if page.hasMore || page.next != "" then Trim(page.next) else Walk(p, n)
  {
    StoredIsTrimmed(p, n);
  }

  /** A page that has more is only passed if it names another cursor that is not blank,
      so that the loop never asks for one page twice in a row, nor starts over. */
  lemma PassedPageMovesOn(page: Page, cursor: string)
    requires page.hasMore
    ensures Malformed(page, cursor) <==> page.next == cursor || forall c :: c in page.next ==> Blank(c)
    ensures !Malformed(page, cursor) ==> NextCursor(page, cursor) == page.next
  {
    var left, right := TrimIsExact(page.next);
    if Trim(page.next) != "" {
      assert page.next[|left|] == Trim(page.next)[0];
    } else {
      assert page.next == left + right;
    }
  }

  // ---------- what every event keeps ----------

  /** A worker that could still pass the guard holds the row as it is. */
  ghost predicate HeldOk(x: World, held: Checkpoint) {
    && held.version <= x.row.version
    && (held.version == x.row.version ==> held == x.row)
  }

  ghost predicate PcOk(x: World, p: Provider, pc: Pc) {
    match pc
    case Holding(held, cursor, _) => HeldOk(x, held) && Trim(cursor) == held.cursor
    case Ingesting(held, cursor, _, g) =>
      && HeldOk(x, held) && Trim(cursor) == held.cursor
      && g.page == p(held.cursor)
      && g.done <= |g.page.transactions|
      && (forall k :: 0 <= k < g.done ==> g.page.transactions[k] in x.ingested)
      && g.lastOccurredAt >= held.lastOccurredAt
    case Completing(held) => HeldOk(x, held)
    case Failing(Some(held)) => HeldOk(x, held)
    case _ => true
  }

  /** The version a worker would present to the guard. */
  function Presents(pc: Pc): Option<nat> {
    match pc
    case Holding(held, _, _) => Some(held.version)
    case Ingesting(held, _, _, _) => Some(held.version)
    case Completing(held) => Some(held.version)
    case Failing(Some(held)) => Some(held.version)
    case _ => None
  }

  ghost predicate WorldOk(x: World, p: Provider) {
    && x.row.cursor == Walk(p, x.steps)
    && Covered(p, x.steps, x.ingested)
    && (forall w :: w in x.pcs ==> PcOk(x, p, x.pcs[w]))
    && (forall v, w :: v in x.pcs && w in x.pcs && v != w && Presents(x.pcs[v]) == Some(x.row.version) ==>
        Presents(x.pcs[w]) != Some(x.row.version))
  }

  /** The row moves on by one version and one worker knows it: every other worker
      becomes stale. */
  lemma RowMoves(x: World, p: Provider, row: Checkpoint, w: string, pc: Pc, steps: nat)
    requires WorldOk(x, p)
    requires row.version == x.row.version + 1
    requires row.cursor == Walk(p, steps) && Covered(p, steps, x.ingested)
    requires PcOk(Put(x.(row := row, steps := steps), w, pc), p, pc)
    ensures WorldOk(Put(x.(row := row, steps := steps), w, pc), p)
  {
    var x' := Put(x.(row := row, steps := steps), w, pc);
    forall v | v in x'.pcs
      ensures PcOk(x', p, x'.pcs[v])
      ensures v != w ==> Presents(x'.pcs[v]) != Some(row.version)
    {
      if v != w {
        assert PcOk(x, p, x.pcs[v]);
      }
    }
  }

  /** A worker moves alone, and transactions are only added. */
  lemma PcMoves(x: World, p: Provider, ingested: set<Txn>, w: string, pc: Pc)
    requires WorldOk(x, p)
    requires w in x.pcs
    requires x.ingested <= ingested
    requires Presents(pc).Some? ==> Presents(pc) == Presents(x.pcs[w])
    requires PcOk(Put(x.(ingested := ingested), w, pc), p, pc)
    ensures WorldOk(Put(x.(ingested := ingested), w, pc), p)
  {
    var x' := Put(x.(ingested := ingested), w, pc);
    forall v | v in x'.pcs
      ensures PcOk(x', p, x'.pcs[v])
    {
      if v != w {
        assert PcOk(x, p, x.pcs[v]);
      }
    }
  }

  /** A fully ingested page extends the covered part of the chain. */
  lemma NextIsWalked(p: Provider, n: nat, page: Page, cursor: string, ingested: set<Txn>)
    requires Walk(p, n) == Trim(cursor) && page == p(Walk(p, n))
    requires Covered(p, n, ingested) && PageIn(page, ingested)
    ensures Walk(p, n + 1) == Trim(NextCursor(page, cursor))
    ensures Covered(p, n + 1, ingested)
  {
    TrimTwice(cursor);
  }

  lemma AdvanceKeeps(x: World, p: Provider, w: string, seen: bool)
    requires WorldOk(x, p)
    requires w in x.pcs && x.pcs[w].Ingesting? && x.pcs[w].progress.done == |x.pcs[w].progress.page.transactions|
    ensures WorldOk(AdvanceStep(x, w, x.pcs[w], seen), p)
  {
    var pc := x.pcs[w];
    assert PcOk(x, p, pc);
    var g := pc.progress;
    var r := AdvanceRow(x.row, pc.held, NextCursor(g.page, pc.cursor), g.lastTransaction, g.lastOccurredAt);
    if r.Ok? {
      AdvancedKeeps(x, p, w, r.value, seen);
    } else {
      PcMoves(x, p, x.ingested, w, Failing(None));
    }
  }

  lemma AdvancedKeeps(x: World, p: Provider, w: string, row: Checkpoint, seen: bool)
    requires WorldOk(x, p)
    requires w in x.pcs && x.pcs[w].Ingesting? && x.pcs[w].progress.done == |x.pcs[w].progress.page.transactions|
    requires x.pcs[w].held == x.row && row.version == x.row.version + 1
    requires row.cursor == Trim(NextCursor(x.pcs[w].progress.page, x.pcs[w].cursor))
    ensures WorldOk(Put(x.(row := row, steps := x.steps + 1), w, AfterAdvance(x.pcs[w], row, seen)), p)
  {
    var pc := x.pcs[w];
    assert PcOk(x, p, pc);
    NextIsWalked(p, x.steps, pc.progress.page, pc.cursor, x.ingested);
    AfterAdvanceOk(x, p, w, pc, row, seen);
    RowMoves(x, p, row, w, AfterAdvance(pc, row, seen), x.steps + 1);
  }

  lemma AfterAdvanceOk(x: World, p: Provider, w: string, pc: Pc, row: Checkpoint, seen: bool)
    requires pc.Ingesting? && row.cursor == Trim(NextCursor(pc.progress.page, pc.cursor))
    ensures PcOk(Put(x.(row := row, steps := x.steps + 1), w, AfterAdvance(pc, row, seen)), p,
                 AfterAdvance(pc, row, seen))
  {
  }

  lemma ReleaseKeeps(x: World, p: Provider, held: Checkpoint, w: string, after: Pc)
    requires WorldOk(x, p)
    requires w in x.pcs
    requires ReleaseRow(x.row, held).Ok?
    requires after.Away? || (after.Failing? && after.last == Some(held))
    ensures WorldOk(Put(x.(row := ReleaseRow(x.row, held).value), w, after), p)
  {
    var row := ReleaseRow(x.row, held).value;
    RowMoves(x, p, row, w, after, x.steps);
    assert x.(row := row, steps := x.steps) == x.(row := row);
  }

  lemma NextKeeps(x: World, p: Provider, maxPages: nat, e: Event)
    requires WorldOk(x, p)
    ensures WorldOk(Next(x, p, maxPages, e), p)
  {
    match e
    case Tick(now) =>
      forall w | w in x.pcs
        ensures PcOk(x.(clock := now), p, x.pcs[w])
      {
        assert PcOk(x, p, x.pcs[w]);
      }
    case Spawn(w) =>
      if w !in x.pcs {
        var x' := Put(x, w, Away);
        forall v | v in x'.pcs
          ensures PcOk(x', p, x'.pcs[v])
        {
          if v != w {
            assert PcOk(x, p, x.pcs[v]);
          }
        }
      }
    case _ =>
      if e.w in x.pcs {
        NextOfKeeps(x, p, maxPages, e);
      }
  }

  lemma NextOfKeeps(x: World, p: Provider, maxPages: nat, e: Event)
    requires WorldOk(x, p)
    requires !e.Tick? && !e.Spawn? && e.w in x.pcs
    ensures WorldOk(NextOf(x, p, maxPages, e, x.pcs[e.w]), p)
  {
    var w := e.w;
    var pc := x.pcs[w];
    assert PcOk(x, p, pc);
    match e
    case Claim(_, until, seen) =>
      if pc.Away? && ClaimRow(x.row, w, until, x.clock).Ok? {
        ClaimKeeps(x, p, maxPages, w, until, seen);
      }
    case Advance(_, seen) =>
      if pc.Ingesting? && pc.progress.done == |pc.progress.page.transactions| {
        AdvanceKeeps(x, p, w, seen);
      }
    case Complete(_, seen) =>
      if pc.Completing? {
        if ReleaseRow(x.row, pc.held).Ok? {
          ReleaseKeeps(x, p, pc.held, w, if seen then Away else Failing(Some(pc.held)));
        } else {
          PcMoves(x, p, x.ingested, w, Failing(Some(pc.held)));
        }
      }
    case Release(_) =>
      if pc.Failing? {
        if pc.last.Some? && ReleaseRow(x.row, pc.last.value).Ok? {
          ReleaseKeeps(x, p, pc.last.value, w, Away);
        } else {
          PcMoves(x, p, x.ingested, w, Away);
        }
      }
    case _ => LocalKeeps(x, p, maxPages, e);
  }

  lemma ClaimKeeps(x: World, p: Provider, maxPages: nat, w: string, until: int, seen: bool)
    requires WorldOk(x, p)
    requires w in x.pcs && x.pcs[w].Away?
    requires ClaimRow(x.row, w, until, x.clock).Ok?
    ensures WorldOk(NextOf(x, p, maxPages, Claim(w, until, seen), x.pcs[w]), p)
  {
    var row := ClaimRow(x.row, w, until, x.clock).value;
    StoredIsTrimmed(p, x.steps);
    RowMoves(x, p, row, w, if seen then Holding(row, row.cursor, maxPages) else Away, x.steps);
    assert x.(row := row, steps := x.steps) == x.(row := row);
  }

  lemma StoredIsTrimmed(p: Provider, n: nat)
    ensures Trim(Walk(p, n)) == Walk(p, n)
  {
    if n > 0 {
      TrimTwice(NextCursor(p(Walk(p, n - 1)), Walk(p, n - 1)));
    }
  }

  /** Events that write no row: fetching and ingesting. */
  lemma LocalKeeps(x: World, p: Provider, maxPages: nat, e: Event)
    requires WorldOk(x, p)
    requires e.Crash? || e.Fetch? || e.FetchFails? || e.Ingest? || e.IngestFails? || e.StatementFails?
    requires e.w in x.pcs
    ensures WorldOk(NextOf(x, p, maxPages, e, x.pcs[e.w]), p)
  {
    var x' := NextOf(x, p, maxPages, e, x.pcs[e.w]);
    assert PcOk(x, p, x.pcs[e.w]);
    PcMoves(x, p, x'.ingested, e.w, x'.pcs[e.w]);
    assert x' == Put(x.(ingested := x'.ingested), e.w, x'.pcs[e.w]);
  }

  lemma {:induction false} RunsKeep(x: World, p: Provider, maxPages: nat, events: seq<Event>)
    requires WorldOk(x, p)
    ensures WorldOk(Runs(x, p, maxPages, events), p)
    decreases |events|
  {
    if events == [] {
    } else {
      NextKeeps(x, p, maxPages, events[0]);
      RunsKeep(Next(x, p, maxPages, events[0]), p, maxPages, events[1..]);
    }
  }

  /** The checkpoint as EnsureProviderCheckpoint creates it. */
  function Fresh(clock: int): World {
    World(Checkpoint("", "", 0, None, 0, 1), {}, map[], clock, 0)
  }

  // ---------- the claims ----------

  /** No page is lost: whatever the interleaving, the stored cursor is the cursor
      after some number of pages of the chain, every transaction of those pages is
      ingested, and at most one worker can still move it. */
  lemma NoPageIsLost(p: Provider, maxPages: nat, clock: int, events: seq<Event>)
    ensures var x := Runs(Fresh(clock), p, maxPages, events);
            && x.row.cursor == Walk(p, x.steps)
            && Covered(p, x.steps, x.ingested)
            && (forall v, w :: v in x.pcs && w in x.pcs && v != w && Presents(x.pcs[v]) == Some(x.row.version) ==>
                Presents(x.pcs[w]) != Some(x.row.version))
  {
    var x := Fresh(clock);
    assert WorldOk(x, p);
    RunsKeep(x, p, maxPages, events);
  }

  /** The cursor moves only when its live owner has ingested the whole page, and
      then by exactly that page; nothing ever moves it, the ingested transactions,
      the last time or the version back. */
  lemma OnlyTheOwnerMovesTheCursor(x: World, p: Provider, maxPages: nat, e: Event)
    requires WorldOk(x, p)
    ensures var x' := Next(x, p, maxPages, e);
            && x.ingested <= x'.ingested
            && x.row.version <= x'.row.version
            && x.row.lastOccurredAt <= x'.row.lastOccurredAt
            && x.steps <= x'.steps <= x.steps + 1
            && (x'.row.cursor != x.row.cursor || x'.steps != x.steps ==>
                  && e.Advance? && e.w in x.pcs && x.pcs[e.w].Ingesting?
                  && x.pcs[e.w].held == x.row
                  && PageIn(p(x.row.cursor), x.ingested)
                  && x'.row.cursor == Trim(NextCursor(p(x.row.cursor), x.pcs[e.w].cursor)))
  {
    if !e.Tick? && !e.Spawn? && e.w in x.pcs {
      assert PcOk(x, p, x.pcs[e.w]);
    }
  }

  lemma {:induction false} NothingGoesBack(x: World, p: Provider, maxPages: nat, events: seq<Event>)
    requires WorldOk(x, p)
    ensures var x' := Runs(x, p, maxPages, events);
            && x.ingested <= x'.ingested
            && x.steps <= x'.steps
            && x.row.version <= x'.row.version
            && x.row.lastOccurredAt <= x'.row.lastOccurredAt
    decreases |events|
  {
    if events == [] {
    } else {
      OnlyTheOwnerMovesTheCursor(x, p, maxPages, events[0]);
      NextKeeps(x, p, maxPages, events[0]);
      NothingGoesBack(Next(x, p, maxPages, events[0]), p, maxPages, events[1..]);
    }
  }

  lemma RunsFirst(x: World, p: Provider, maxPages: nat, e: Event, rest: seq<Event>)
    ensures Runs(x, p, maxPages, [e] + rest) == Runs(Next(x, p, maxPages, e), p, maxPages, rest)
  {
    assert ([e] + rest)[1..] == rest;
  }

  lemma RunsFive(x: World, p: Provider, maxPages: nat, a: Event, b: Event, c: Event, d: Event, e: Event)
    ensures Runs(x, p, maxPages, [a, b, c, d, e]) ==
            Next(Next(Next(Next(Next(x, p, maxPages, a), p, maxPages, b), p, maxPages, c), p, maxPages, d), p,
                 maxPages, e)
  {
    var x1 := Next(x, p, maxPages, a);
    var x2 := Next(x1, p, maxPages, b);
    var x3 := Next(x2, p, maxPages, c);
    var x4 := Next(x3, p, maxPages, d);
    assert [a, b, c, d, e] == [a] + [b, c, d, e];
    RunsFirst(x, p, maxPages, a, [b, c, d, e]);
    assert [b, c, d, e] == [b] + [c, d, e];
    RunsFirst(x1, p, maxPages, b, [c, d, e]);
    assert [c, d, e] == [c] + [d, e];
    RunsFirst(x2, p, maxPages, c, [d, e]);
    assert [d, e] == [d] + [e];
    RunsFirst(x3, p, maxPages, d, [e]);
    assert [e] == [e] + [];
    RunsFirst(x4, p, maxPages, e, []);
  }

  /** A worker whose advance fails cannot give its lease back: whether the advance was
      refused or committed without an answer, the lease stays until it expires. */
  lemma FailedAdvanceKeepsTheLease(p: Provider, clock: int, w: string, until: int, refused: bool)
    requires p("") == Page([], "", false)
    ensures var advance := if refused then StatementFails(w) else Advance(w, false);
            var x := Runs(Fresh(clock), p, 1, [Spawn(w), Claim(w, until, true), Fetch(w), advance, Release(w)]);
            x.row.owner == Some(w) && x.row.leaseUntil == until && x.pcs == map[w := Away]
  {
    var advance := if refused then StatementFails(w) else Advance(w, false);
    RunsFive(Fresh(clock), p, 1, Spawn(w), Claim(w, until, true), Fetch(w), advance, Release(w));
    var x3 := Next(Next(Next(Fresh(clock), p, 1, Spawn(w)), p, 1, Claim(w, until, true)), p, 1, Fetch(w));
    assert x3.pcs == map[w := x3.pcs[w]] && x3.pcs[w].Ingesting? && x3.pcs[w].held == x3.row;
  }
}
