/** What the inventory transactions do, said on the rows: releasing the items of an order,
    recovering expired reservations, and an administrator's import and switch. */
module InventoryOutcomes {
  import opened Results
  import opened Domain
  import opened Database
  import opened GateOutcomes
  import opened GateTable
  import opened InventoryStore
  import opened StockTable

  // ---------- releasing ----------

  predicate HeldFor(k: Stock, o: nat, i: nat) {
    i < |k.items| && k.items[i].state.Reserved? && k.items[i].state.order == o
  }

  predicate MappedTo(k: Stock, o: nat, i: nat) {
    (o, i) in k.mappings && k.mappings[(o, i)] == Active
  }

  /** The items of an order may be freed for one reason only, which its status gives. */
  predicate Frees(status: OrderStatus, reason: ReleaseReason) {
    || (status == Cancelled && reason == ReleaseCancelled)
    || (status == Expired && reason == ReleaseExpired)
    || (status == Refunded && reason == ReleaseRefunded)
    || (status == OutOfStock && reason == ReleaseOutOfStock)
  }

  predicate EverFrees(status: OrderStatus) {
    status in {Cancelled, Expired, Refunded, OutOfStock}
  }

  /** Every item reserved for the order is available again, its mapping says why, and
      nothing else about the stock differs. */
  ghost predicate ItemsFreed(k: Stock, k': Stock, o: nat, reason: ReleaseReason) {
    && |k'.items| == |k.items| && k'.mappings.Keys == k.mappings.Keys
    && (forall i: nat :: i < |k.items| ==>
          k'.items[i] == if HeldFor(k, o, i) then
                           k.items[i].(state := Available, version := k.items[i].version + 1)
                         else k.items[i])
    && (forall key :: key in k.mappings ==>
          k'.mappings[key] == if key.0 == o && HeldFor(k, o, key.1) then Released(reason) else k.mappings[key])
  }

  /** A release commits if and only if the order exists, the reason is that of its status
      and every item reserved for it is actively mapped to it; it answers how many. */
  lemma ReleaseIsExact(db: Db, o: nat, reason: ReleaseReason)
    ensures var r := ReleaseInventory(db, o, reason);
            && (r.Ok? <==>
                && o < |db.sales.orders| && Frees(db.sales.orders[o].status, reason)
                && forall i: nat :: HeldFor(db.stock, o, i) ==> MappedTo(db.stock, o, i))
            && (r.Ok? ==>
                  && r.value.0 == db.(stock := r.value.0.stock)
                  && ItemsFreed(db.stock, r.value.0.stock, o, reason)
                  && r.value.1 == |ReservedBy(db.stock, o)|)
    ensures o < |db.sales.orders| && !EverFrees(db.sales.orders[o].status) ==>
              ReleaseInventory(db, o, reason) == Err(UnsafeReservationRelease)
  {
    if o < |db.sales.orders| {
      ItemsAreFreed(db.stock, o, reason);
    }
  }

  lemma ItemsAreFreed(k: Stock, o: nat, reason: ReleaseReason)
    ensures var r := ReleaseFor(k, o, reason);
            && (r.Ok? <==> forall i: nat :: HeldFor(k, o, i) ==> MappedTo(k, o, i))
            && (r.Ok? ==> ItemsFreed(k, r.value.0, o, reason) && r.value.1 == |ReservedBy(k, o)|)
  {
    var ids := ReservedBy(k, o);
    var mapped := ActiveMappings(k, o, ids);
    assert forall i: nat :: i in ids <==> HeldFor(k, o, i);
    assert forall i: nat :: i in mapped <==> HeldFor(k, o, i) && MappedTo(k, o, i);
    AllOfThem(mapped, ids);
    if mapped == ids {
      RowsAreFreed(k, o, reason);
    }
  }

  lemma RowsAreFreed(k: Stock, o: nat, reason: ReleaseReason)
    requires ActiveMappings(k, o, ReservedBy(k, o)) == ReservedBy(k, o)
    ensures ItemsFreed(k, ReleaseMappings(Release(k, o), o, ReservedBy(k, o), reason), o, reason)
  {
    var ids := ReservedBy(k, o);
    var k' := ReleaseMappings(Release(k, o), o, ids, reason);
    assert ActiveMappings(Release(k, o), o, ids) == ActiveMappings(k, o, ids);
    forall key | key in k.mappings
      ensures key in k'.mappings
      ensures k'.mappings[key] == if key.0 == o && HeldFor(k, o, key.1) then Released(reason) else k.mappings[key]
    {
      assert key.1 in ids <==> HeldFor(k, o, key.1);
    }
    forall key | key in k'.mappings
      ensures key in k.mappings
    {
      assert key !in k.mappings ==> key.0 == o && key.1 in ActiveMappings(k, o, ids);
    }
  }

  lemma AllOfThem(some: set<nat>, all: set<nat>)
    requires some <= all
    ensures |some| == |all| <==> some == all
  {
    assert all == some + (all - some);
  }

  /** Reservations of an order that have run out are recovered by releasing all its items,
      if its status says why; if it does not, a person is asked for, and an order without
      any is left alone. */
  lemma RecoveryOfItemsIsExact(db: Db, o: nat, now: int)
    ensures var r := RecoverExpired(db, o, now);
            var due := exists i: nat :: HeldFor(db.stock, o, i) && db.stock.items[i].state.until <= now;
            && (o >= |db.sales.orders| ==> r == Err(NotFound))
            && (o < |db.sales.orders| && !due ==> r == Ok((db, Recovery(0, false))))
            && (o < |db.sales.orders| && due && !EverFrees(db.sales.orders[o].status) ==>
                  r == Ok((db, Recovery(0, true))))
            && (forall reason :: o < |db.sales.orders| && due && Frees(db.sales.orders[o].status, reason) ==>
                  && (r.Ok? <==> forall i: nat :: HeldFor(db.stock, o, i) ==> MappedTo(db.stock, o, i))
                  && (r.Ok? ==>
                        && r.value.0 == db.(stock := r.value.0.stock)
                        && ItemsFreed(db.stock, r.value.0.stock, o, reason)
                        && r.value.1 == Recovery(|ReservedBy(db.stock, o)|, false)))
  {
    if o < |db.sales.orders| {
      var expired := ExpiredReservations(db.stock, o, now);
      assert forall i: nat :: i in expired <==> HeldFor(db.stock, o, i) && db.stock.items[i].state.until <= now;
      if i: nat :| i in expired {
      } else {
        assert expired == {};
      }
      forall reason | Frees(db.sales.orders[o].status, reason) {
        ItemsAreFreed(db.stock, o, reason);
      }
    }
  }

  // ---------- what an administrator does ----------

  /** Payloads are imported if and only if the administrator is entitled to, the update is
      being processed and the product is kept in inventory; each unseen one becomes one
      available item. */
  lemma ImportIsExact(db: Db, ticket: Ticket, update: nat, product: nat, unseen: nat, now: int)
    ensures var r := Import(db, ticket, update, product, unseen, now);
            && (r.Ok? <==>
                && Entitled(db.gate, ticket, "inventory.import", now) && BeingProcessed(db.gate, update)
                && product < |db.sales.products| && db.sales.products[product].fromInventory)
            && (r.Ok? ==>
                  && r.value == db.(stock := Stock(r.value.stock.items, db.stock.mappings),
                                    gate := Used(db.gate, ticket, "completed", now, update))
                  && |r.value.stock.items| == |db.stock.items| + unseen
                  && forall i :: 0 <= i < |r.value.stock.items| ==>
                       r.value.stock.items[i] == if i < |db.stock.items| then db.stock.items[i]
                                                 else Item(product, Available, true, 1))
  {
    UseIsExact(db.gate, ticket, "inventory.import", update, now);
  }

  /** An item is switched if and only if the administrator is entitled to, the update is
      being processed, and the item is at the version that was seen and in the opposite
      state; only its state and its version change. */
  lemma SwitchIsExact(db: Db, ticket: Ticket, update: nat, item: nat, version: nat, enable: bool, now: int)
    ensures var r := SetEnabled(db, ticket, update, item, version, enable, now);
            var from, to := if enable then Disabled else Available, if enable then Available else Disabled;
            && (r.Ok? <==>
                && Entitled(db.gate, ticket, "inventory.toggle", now) && BeingProcessed(db.gate, update)
                && item < |db.stock.items|
                && db.stock.items[item].version == version && db.stock.items[item].state == from)
            && (r.Ok? ==>
                  var row := db.stock.items[item];
                  r.value == db.(
                    stock := Stock(db.stock.items[item := Item(row.product, to, row.encrypted, version + 1)],
                                   db.stock.mappings),
                    gate := Used(db.gate, ticket, "completed", now, update)))
  {
    UseIsExact(db.gate, ticket, "inventory.toggle", update, now);
  }
}
