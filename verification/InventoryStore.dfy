/** Release of reservations, recovery of expired ones, and the administrator's
    import and enable/disable transactions. */
module InventoryStore {
  import opened Results
  import opened Domain
  import opened Database
  import opened GateTable
  import opened StockTable

  const INVENTORY_IMPORT := "inventory.import"
  const INVENTORY_TOGGLE := "inventory.toggle"

  /** releaseInventoryForOrder: items and mappings must agree in number. */
  function ReleaseFor(s: Stock, order: nat, reason: ReleaseReason): Result<(Stock, nat)> {
    var ids := ReservedBy(s, order);
    if ids == {} then Ok((s, 0))
    else
      :- Need(|ActiveMappings(s, order, ids)| == |ids|, ReservationNotOwned);
      Ok((ReleaseMappings(Release(s, order), order, ids, reason), |ids|))
  }

  function ReleaseInventory(db: Db, order: nat, reason: ReleaseReason): Result<(Db, nat)> {
    if order >= |db.sales.orders| then Err(NotFound)
    else
      match ReleaseReasonForOrder(db.sales.orders[order].status)
      case None => Err(UnsafeReservationRelease)
      case Some(expected) =>
        :- Need(reason == expected, InvalidInput);
        var (stock, released) :- ReleaseFor(db.stock, order, reason);
        Ok((db.(stock := stock), released))
  }

  function ExpiredReservations(s: Stock, order: nat, now: int): set<nat> {
    set i | i in ReservedBy(s, order) && s.items[i].state.until <= now
  }

  datatype Recovery = Recovery(released: nat, required: bool)

  function RecoverExpired(db: Db, order: nat, now: int): Result<(Db, Recovery)> {
    if order >= |db.sales.orders| then Err(NotFound)
    else if ExpiredReservations(db.stock, order, now) == {} then Ok((db, Recovery(0, false)))
    else
      match ReleaseReasonForOrder(db.sales.orders[order].status)
      case None => Ok((db, Recovery(0, true)))
      case Some(reason) =>
        var (stock, released) :- ReleaseFor(db.stock, order, reason);
        Ok((db.(stock := stock), Recovery(released, false)))
  }

  /** ImportInventory; unseen counts the payloads whose fingerprint is new. */
  function Import(db: Db, ticket: Ticket, update: nat, product: nat, unseen: nat, now: int): Result<Db> {
    var admitted := AdmitToCatalog(db.gate, ticket, INVENTORY_IMPORT, now);
    :- admitted;
    :- Need(product < |db.sales.products| && db.sales.products[product].fromInventory, NotFound);
    var gate :- Leave(db.gate, ticket, update, now);
    Ok(db.(stock := ImportItems(db.stock, product, unseen), gate := gate))
  }

  /** SetInventoryItemEnabled. */
  function SetEnabled(db: Db, ticket: Ticket, update: nat, item: nat, version: nat, enable: bool,
                      now: int): Result<Db>
  {
    var admitted := AdmitToCatalog(db.gate, ticket, INVENTORY_TOGGLE, now);
    :- admitted;
    :- Need(item < |db.stock.items|, InventoryNotFound);
    :- Need(db.stock.items[item].version == version, StaleVersion);
    :- Need(db.stock.items[item].state == (if enable then Disabled else Available), InvalidInventoryState);
    var stock :- SwitchItem(db.stock, item, version, enable);
    var gate :- Leave(db.gate, ticket, update, now);
    Ok(db.(stock := stock, gate := gate))
  }
}
