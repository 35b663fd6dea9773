/** What must agree between the table groups, and how a step that changes one
    order keeps it. */
module Agreement {
  import opened Domain
  import opened Database
  import opened QueueTable
  import opened SalesTable
  import opened StockTable
  import opened TillTable
  import opened WalletStore
  import opened WalletTable

  // ---------- orders and delivery jobs ----------

  /** The order status a job of each status belongs to. No job is ever cancelled. */
  predicate StatusFits(job: DeliveryStatus, order: OrderStatus) {
    match job
    case JobCompleted => order == Delivered
    case JobPermanentFailed => order == DeliveryFailed
    case JobCancelled => false
    case _ => order == Delivering
  }

  ghost predicate JobFits(s: Sales, q: Queue, j: nat)
    requires j < |q.jobs|
  {
    var job := q.jobs[j];
    && job.order < |s.orders|
    && s.orders[job.order].user < |s.users|
    && job.recipient == s.users[s.orders[job.order].user].chat
    && StatusFits(job.status, s.orders[job.order].status)
  }

  ghost predicate HasJob(q: Queue, order: nat) {
    FindByOrder(q, order).Some?
  }

  ghost predicate JobsAgree(s: Sales, q: Queue) {
    && (forall j :: 0 <= j < |q.jobs| ==> JobFits(s, q, j))
    && (forall o :: 0 <= o < |s.orders| && Fulfilling(s.orders[o].status) ==> HasJob(q, o))
  }

  /** One order and its job move together. */
  lemma JobMoves(s: Sales, s': Sales, q: Queue, q': Queue, j: nat)
    requires QueueOk(q) && JobsAgree(s, q)
    requires OnlyJob(q, q', j)
    requires OnlyMoved(s, s', q.jobs[j].order)
    requires StatusFits(q'.jobs[j].status, s'.orders[q.jobs[j].order].status)
    ensures JobsAgree(s', q')
  {
    forall i | 0 <= i < |q'.jobs|
      ensures JobFits(s', q', i)
    {
      assert JobFits(s, q, i) && JobFits(s, q, j);
      if i != j {
        assert q.jobs[i].order != q.jobs[j].order;
      }
    }
    forall o | 0 <= o < |s'.orders| && Fulfilling(s'.orders[o].status)
      ensures HasJob(q', o)
    {
      if o == q.jobs[j].order {
        assert q'.jobs[j].order == o;
      } else {
        assert HasJob(q, o);
        assert q'.jobs[FindByOrder(q, o).value].order == o;
      }
    }
  }

  /** A job changes within the statuses its order status allows. */
  lemma JobRelabels(s: Sales, q: Queue, q': Queue, j: nat)
    requires QueueOk(q) && JobsAgree(s, q)
    requires OnlyJob(q, q', j)
    requires q.jobs[j].order < |s.orders|
    requires StatusFits(q'.jobs[j].status, s.orders[q.jobs[j].order].status)
    ensures JobsAgree(s, q')
  {
    forall i | 0 <= i < |q'.jobs|
      ensures JobFits(s, q', i)
    {
      assert JobFits(s, q, i);
    }
    forall o | 0 <= o < |s.orders| && Fulfilling(s.orders[o].status)
      ensures HasJob(q', o)
    {
      assert HasJob(q, o);
      assert q'.jobs[FindByOrder(q, o).value].order == o;
    }
  }

  /** A job is created for an order that starts delivering. */
  lemma JobCreated(s: Sales, s': Sales, q: Queue, o: nat, maxAttempts: nat, now: int)
    requires JobsAgree(s, q)
    requires OnlyMoved(s, s', o)
    requires s.orders[o].user < |s.users|
    requires InsertJob(q, o, maxAttempts, now, s.users[s.orders[o].user].chat).Some?
    requires s'.orders[o].status == Delivering
    ensures JobsAgree(s', InsertJob(q, o, maxAttempts, now, s.users[s.orders[o].user].chat).value)
  {
    var q' := InsertJob(q, o, maxAttempts, now, s.users[s.orders[o].user].chat).value;
    forall i | 0 <= i < |q'.jobs|
      ensures JobFits(s', q', i)
    {
      if i < |q.jobs| {
        assert JobFits(s, q, i);
        assert q.jobs[i].order != o;
      }
    }
    forall p | 0 <= p < |s'.orders| && Fulfilling(s'.orders[p].status)
      ensures HasJob(q', p)
    {
      if p == o {
        assert q'.jobs[|q.jobs|].order == o;
      } else {
        assert HasJob(q, p);
        assert q'.jobs[FindByOrder(q, p).value].order == p;
      }
    }
  }

  lemma NoJob(s: Sales, q: Queue, o: nat)
    requires JobsAgree(s, q)
    requires o < |s.orders| ==> !Fulfilling(s.orders[o].status)
    ensures FindByOrder(q, o).None?
  {
    forall j | 0 <= j < |q.jobs|
      ensures q.jobs[j].order != o
    {
      assert JobFits(s, q, j);
    }
  }

  // ---------- orders and inventory ----------

  /** A delivering or failed order holds exactly its quantity reserved, a
      delivered one exactly its quantity sold, any other order nothing. */
  ghost predicate HoldingFits(order: Order, reserved: set<nat>, sold: set<nat>) {
    && (if order.status in {Delivering, DeliveryFailed} then |reserved| == order.quantity else reserved == {})
    && (if order.status == Delivered then |sold| == order.quantity else sold == {})
  }

  ghost predicate HoldsItsShare(s: Sales, k: Stock, o: nat) {
    if o < |s.orders| then HoldingFits(s.orders[o], ReservedBy(k, o), SoldTo(k, o))
    else ReservedBy(k, o) == {} && SoldTo(k, o) == {}
  }

  ghost predicate StockAgrees(s: Sales, k: Stock) {
    forall o: nat :: HoldsItsShare(s, k, o)
  }

  ghost predicate SameHoldings(k: Stock, k': Stock, o: nat) {
    ReservedBy(k', o) == ReservedBy(k, o) && SoldTo(k', o) == SoldTo(k, o)
  }

  lemma HoldingMoves(s: Sales, s': Sales, k: Stock, k': Stock, o: nat)
    requires StockAgrees(s, k)
    requires OnlyMoved(s, s', o)
    requires forall p: nat :: p != o ==> SameHoldings(k, k', p)
    requires HoldingFits(s'.orders[o], ReservedBy(k', o), SoldTo(k', o))
    ensures StockAgrees(s', k')
  {
    forall p: nat
      ensures HoldsItsShare(s', k', p)
    {
      assert HoldsItsShare(s, k, p);
      if p != o {
        assert SameHoldings(k, k', p);
      }
    }
  }

  // ---------- orders, top-ups and payment allocations ----------

  ghost predicate IsPaid(t: Till, target: Target) {
    FindTarget(t, target).Some?
  }

  ghost predicate AllocationFits(s: Sales, t: Till, a: nat)
    requires a < |t.allocations|
  {
    match t.allocations[a].target
    case OrderTarget(o) => o < |s.orders| && t.allocations[a].amount == s.orders[o].total
    case TopupTarget(_) => true
  }

  ghost predicate PaidIffFulfilling(s: Sales, t: Till, o: nat)
    requires o < |s.orders|
  {
    Fulfilling(s.orders[o].status) <==> IsPaid(t, OrderTarget(o))
  }

  ghost predicate TillAgrees(s: Sales, t: Till) {
    && (forall o :: 0 <= o < |s.orders| ==> PaidIffFulfilling(s, t, o))
    && (forall a :: 0 <= a < |t.allocations| ==> AllocationFits(s, t, a))
  }

  lemma SameAllocationsSamePaid(t: Till, t': Till, target: Target)
    requires t'.allocations == t.allocations
    ensures IsPaid(t', target) == IsPaid(t, target)
  {
  }

  lemma PaidGrows(t: Till, t': Till, target: Target)
    requires |t'.allocations| == |t.allocations| + 1 && t.allocations <= t'.allocations
    ensures IsPaid(t', target) == (IsPaid(t, target) || t'.allocations[|t.allocations|].target == target)
  {
    if IsPaid(t, target) {
      assert t'.allocations[FindTarget(t, target).value].target == target;
    }
    if t'.allocations[|t.allocations|].target == target {
      assert FindTarget(t', target).Some?;
    }
  }

  /** A step that allocates nothing may move an order only between fulfilling
      statuses, or between the others. */
  lemma TillMoves(s: Sales, s': Sales, t: Till, t': Till, o: nat)
    requires TillAgrees(s, t)
    requires OnlyMoved(s, s', o)
    requires t'.allocations == t.allocations
    requires Fulfilling(s'.orders[o].status) == Fulfilling(s.orders[o].status)
    ensures TillAgrees(s', t')
  {
    forall p | 0 <= p < |s'.orders|
      ensures PaidIffFulfilling(s', t', p)
    {
      assert PaidIffFulfilling(s, t, p);
      SameAllocationsSamePaid(t, t', OrderTarget(p));
    }
    forall a | 0 <= a < |t'.allocations|
      ensures AllocationFits(s', t', a)
    {
      assert AllocationFits(s, t, a);
    }
  }

  /** An order that starts being fulfilled gets its allocation in the same step. */
  lemma TillPays(s: Sales, s': Sales, t: Till, t': Till, o: nat, p: nat)
    requires TillAgrees(s, t)
    requires OnlyMoved(s, s', o)
    requires t'.allocations == t.allocations + [Allocation(p, OrderTarget(o), s.orders[o].total)]
    requires Fulfilling(s'.orders[o].status)
    ensures TillAgrees(s', t')
  {
    forall r | 0 <= r < |s'.orders|
      ensures PaidIffFulfilling(s', t', r)
    {
      assert PaidIffFulfilling(s, t, r);
      PaidGrows(t, t', OrderTarget(r));
    }
    forall a | 0 <= a < |t'.allocations|
      ensures AllocationFits(s', t', a)
    {
      if a < |t.allocations| {
        assert AllocationFits(s, t, a);
      }
    }
  }

  /** The amounts allocated to top-ups. */
  function AllocatedToTopups(allocations: seq<Allocation>): int {
    if allocations == [] then 0
    else
      var last := allocations[|allocations| - 1];
      AllocatedToTopups(allocations[..|allocations| - 1]) + if last.target.TopupTarget? then last.amount else 0
  }

  ghost predicate TopupAllocationFits(t: Till, w: Wallets, a: nat)
    requires a < |t.allocations|
  {
    match t.allocations[a].target
    case OrderTarget(_) => true
    case TopupTarget(u) => u < |w.topups| && t.allocations[a].amount == w.topups[u].amount
  }

  ghost predicate PaidIffCredited(t: Till, w: Wallets, u: nat)
    requires u < |w.topups|
  {
    w.topups[u].status == TopupCredited <==> IsPaid(t, TopupTarget(u))
  }

  ghost predicate TopupsAgree(t: Till, w: Wallets) {
    && (forall u :: 0 <= u < |w.topups| ==> PaidIffCredited(t, w, u))
    && (forall a :: 0 <= a < |t.allocations| ==> TopupAllocationFits(t, w, a))
    && SumOfKind(w.ledger, Topups) == AllocatedToTopups(t.allocations)
  }

  /** Steps that allocate nothing: no top-up becomes or stops being credited and
      no top-up entry is written. */
  lemma TopupsKept(t: Till, t': Till, w: Wallets, w': Wallets)
    requires TopupsAgree(t, w)
    requires t'.allocations == t.allocations
    requires |w.topups| <= |w'.topups|
    requires forall u :: 0 <= u < |w.topups| ==>
               w'.topups[u].amount == w.topups[u].amount
                   && (w'.topups[u].status == TopupCredited) == (w.topups[u].status == TopupCredited)
    requires forall u :: |w.topups| <= u < |w'.topups| ==> w'.topups[u].status != TopupCredited
    requires SumOfKind(w'.ledger, Topups) == SumOfKind(w.ledger, Topups)
    ensures TopupsAgree(t', w')
  {
    forall a | 0 <= a < |t.allocations| && t.allocations[a].target.TopupTarget?
      ensures t.allocations[a].target.topup < |w.topups|
    {
      assert TopupAllocationFits(t, w, a);
    }
    forall u | 0 <= u < |w'.topups|
      ensures PaidIffCredited(t', w', u)
    {
      SameAllocationsSamePaid(t, t', TopupTarget(u));
      if u < |w.topups| {
        assert PaidIffCredited(t, w, u);
      }
    }
    forall a | 0 <= a < |t'.allocations|
      ensures TopupAllocationFits(t', w', a)
    {
      assert TopupAllocationFits(t, w, a);
    }
  }

  /** An allocation to an order touches no top-up. */
  lemma TopupsKeptByOrder(t: Till, t': Till, w: Wallets, w': Wallets)
    requires TopupsAgree(t, w)
    requires |t'.allocations| == |t.allocations| + 1 && t.allocations <= t'.allocations
    requires t'.allocations[|t.allocations|].target.OrderTarget?
    requires w'.topups == w.topups
    requires SumOfKind(w'.ledger, Topups) == SumOfKind(w.ledger, Topups)
    ensures TopupsAgree(t', w')
  {
    forall u | 0 <= u < |w'.topups|
      ensures PaidIffCredited(t', w', u)
    {
      assert PaidIffCredited(t, w, u);
      PaidGrows(t, t', TopupTarget(u));
    }
    forall a | 0 <= a < |t'.allocations|
      ensures TopupAllocationFits(t', w', a)
    {
      if a < |t.allocations| {
        assert TopupAllocationFits(t, w, a);
      }
    }
    assert t'.allocations[..|t.allocations|] == t.allocations;
  }

  /** A credited top-up gets its allocation and its ledger entry in one step. */
  lemma TopupPays(t: Till, t': Till, w: Wallets, w': Wallets, u: nat, p: nat)
    requires TopupsAgree(t, w)
    requires u < |w.topups|
    requires t'.allocations == t.allocations + [Allocation(p, TopupTarget(u), w.topups[u].amount)]
    requires |w'.topups| == |w.topups|
    requires forall v :: 0 <= v < |w.topups| && v != u ==> w'.topups[v] == w.topups[v]
    requires w'.topups[u].amount == w.topups[u].amount && w'.topups[u].status == TopupCredited
    requires SumOfKind(w'.ledger, Topups) == SumOfKind(w.ledger, Topups) + w.topups[u].amount
    ensures TopupsAgree(t', w')
  {
    forall v | 0 <= v < |w'.topups|
      ensures PaidIffCredited(t', w', v)
    {
      assert PaidIffCredited(t, w, v);
      PaidGrows(t, t', TopupTarget(v));
    }
    forall a | 0 <= a < |t'.allocations|
      ensures TopupAllocationFits(t', w', a)
    {
      if a < |t.allocations| {
        assert TopupAllocationFits(t, w, a);
      }
    }
    assert t'.allocations[..|t.allocations|] == t.allocations;
  }

  // ---------- orders paid from a wallet ----------

  /** The allocation of an order comes from its wallet payment. */
  ghost predicate PaidFromWallet(t: Till, o: nat) {
    exists a :: 0 <= a < |t.allocations| && t.allocations[a].target == OrderTarget(o)
      && t.allocations[a].payment < |t.payments|
      && t.payments[t.allocations[a].payment].provider == WALLET
      && t.payments[t.allocations[a].payment].transaction == WalletTransaction(o)
  }

  /** A debit is the exact total of an order that is being fulfilled, taken from
      the account of its buyer and allocated as its wallet payment. */
  ghost predicate DebitFits(s: Sales, t: Till, w: Wallets, e: nat)
    requires e < |w.ledger|
  {
    var entry := w.ledger[e];
    entry.source.ForOrder? ==>
      && entry.source.order < |s.orders|
      && Fulfilling(s.orders[entry.source.order].status)
      && entry.amount == -s.orders[entry.source.order].total
      && entry.account < |w.accounts|
      && w.accounts[entry.account].user == s.orders[entry.source.order].user
      && PaidFromWallet(t, entry.source.order)
  }

  ghost predicate DebitsAgree(s: Sales, t: Till, w: Wallets) {
    forall e :: 0 <= e < |w.ledger| ==> DebitFits(s, t, w, e)
  }

  lemma WalletPaymentKept(t: Till, t': Till, o: nat)
    requires PaidFromWallet(t, o)
    requires t.allocations <= t'.allocations && t.payments <= t'.payments
    ensures PaidFromWallet(t', o)
  {
    var a :| 0 <= a < |t.allocations| && t.allocations[a].target == OrderTarget(o)
      && t.allocations[a].payment < |t.payments|
      && t.payments[t.allocations[a].payment].provider == WALLET
      && t.payments[t.allocations[a].payment].transaction == WalletTransaction(o);
    assert t'.allocations[a] == t.allocations[a];
  }

  /** Old debits stay right while orders only leave the statuses that are not
      fulfilling, tills only grow and accounts keep their users. */
  lemma DebitsKept(s: Sales, s': Sales, t: Till, t': Till, w: Wallets, w': Wallets)
    requires DebitsAgree(s, t, w)
    requires |s.orders| <= |s'.orders|
    requires forall o :: 0 <= o < |s.orders| ==>
               s'.orders[o].total == s.orders[o].total && s'.orders[o].user == s.orders[o].user
               && (Fulfilling(s.orders[o].status) ==> Fulfilling(s'.orders[o].status))
    requires t.allocations <= t'.allocations && t.payments <= t'.payments
    requires |w.accounts| <= |w'.accounts|
    requires forall a :: 0 <= a < |w.accounts| ==> w'.accounts[a].user == w.accounts[a].user
    requires w.ledger <= w'.ledger
    requires forall e :: |w.ledger| <= e < |w'.ledger| ==> DebitFits(s', t', w', e)
    ensures DebitsAgree(s', t', w')
  {
    forall e | 0 <= e < |w'.ledger|
      ensures DebitFits(s', t', w', e)
    {
      if e < |w.ledger| {
        assert DebitFits(s, t, w, e);
        if w.ledger[e].source.ForOrder? {
          WalletPaymentKept(t, t', w.ledger[e].source.order);
        }
      }
    }
  }

  // ---------- everything ----------

  /** The parts of the invariant: five about one table group, five about two. */
  datatype Part =
    | SalesSound | StockSound | QueueSound | TillSound | WalletsSound
    | JobsMatch | HoldingsMatch | PaymentsMatch | TopupsMatch | DebitsMatch

  ghost predicate Holds(part: Part, db: Db) {
    match part
    case SalesSound => SalesOk(db.sales)
    case StockSound => StockOk(db.stock)
    case QueueSound => QueueOk(db.queue)
    case TillSound => TillOk(db.till)
    case WalletsSound => WalletsOk(db.wallets)
    case JobsMatch => JobsAgree(db.sales, db.queue)
    case HoldingsMatch => StockAgrees(db.sales, db.stock)
    case PaymentsMatch => TillAgrees(db.sales, db.till)
    case TopupsMatch => TopupsAgree(db.till, db.wallets)
    case DebitsMatch => DebitsAgree(db.sales, db.till, db.wallets)
  }

  /** The invariant of every committed state. */
  ghost predicate Inv(db: Db) {
    forall part :: Holds(part, db)
  }

  /** An order moves between statuses that are not fulfilling: nothing else needs
      to change. */
  lemma UnpaidOrderMoves(db: Db, s': Sales, o: nat)
    requires Inv(db)
    requires OnlyMoved(db.sales, s', o)
    requires SalesOk(s')
    requires !Fulfilling(db.sales.orders[o].status) && !Fulfilling(s'.orders[o].status)
    ensures Inv(db.(sales := s'))
  {
    assert JobsAgree(s', db.queue) by {
      assert Holds(JobsMatch, db);
      forall j | 0 <= j < |db.queue.jobs|
        ensures JobFits(s', db.queue, j)
      {
        assert JobFits(db.sales, db.queue, j);
      }
    }
    assert StockAgrees(s', db.stock) by {
      assert Holds(HoldingsMatch, db);
      assert HoldsItsShare(db.sales, db.stock, o);
      HoldingMoves(db.sales, s', db.stock, db.stock, o);
    }
    assert TillAgrees(s', db.till) by {
      assert Holds(PaymentsMatch, db);
      TillMoves(db.sales, s', db.till, db.till, o);
    }
    assert DebitsAgree(s', db.till, db.wallets) by {
      assert Holds(DebitsMatch, db);
      DebitsKept(db.sales, s', db.till, db.till, db.wallets, db.wallets);
    }
    forall part
      ensures Holds(part, db.(sales := s'))
    {
      assert Holds(part, db);
    }
  }
}
