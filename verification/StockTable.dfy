/** Inventory items and their order mappings, with the SQL statements that move
    items between the four states. */
module StockTable {
  import opened Results
  import opened Domain

  type Time = int

  /** The item status together with the columns the CHECK constraint ties to it. */
  datatype ItemState = Available | Reserved(order: nat, until: Time) | Sold(order: nat) | Disabled

  datatype Item = Item(product: nat, state: ItemState, encrypted: bool, version: nat)

  datatype MappingState = Active | Released(reason: ReleaseReason)

  /** Mappings are keyed by their primary key (order, item). */
  datatype Stock = Stock(items: seq<Item>, mappings: map<(nat, nat), MappingState>)

  predicate HasActiveMapping(s: Stock, item: nat) {
    exists k :: k in s.mappings && k.1 == item && s.mappings[k] == Active
  }

  /** The rows that the selection of ClaimExactAvailableInventory may lock. */
  function Claimable(s: Stock, product: nat): set<nat> {
    set i: nat | i < |s.items| && s.items[i].product == product && s.items[i].state == Available
                 && s.items[i].encrypted && !HasActiveMapping(s, i)
  }

  /** The rows the exact claim takes: SKIP LOCKED may leave out rows that other
      transactions hold, so any full set of claimable rows can be offered; an
      incomplete or foreign offer claims nothing. */
  function ExactSet(s: Stock, product: nat, quantity: int, offered: set<nat>): (claimed: set<nat>)
    ensures claimed == {} || (|claimed| == quantity && claimed <= Claimable(s, product))
  {
    if |offered| == quantity && offered <= Claimable(s, product) then offered else {}
  }

  function Reserve(s: Stock, order: nat, until: Time, claimed: set<nat>): Stock {
    s.(items := seq(|s.items|, i requires 0 <= i < |s.items| =>
      if i in claimed then s.items[i].(state := Reserved(order, until), version := s.items[i].version + 1)
      else s.items[i]))
  }

  /** One mapping row of the order for each item. */
  function RowsFor(order: nat, items: set<nat>, state: MappingState): (rows: map<(nat, nat), MappingState>)
    ensures forall k :: k in rows <==> k.0 == order && k.1 in items
    ensures forall k :: k in rows ==> rows[k] == state
  {
    var keys := set i | i in items :: (order, i);
    map k | k in keys :: state
  }

  /** InsertOrderInventoryMapping: the primary key and the unique index on
      active mappings of an item both refuse a second row. */
  function InsertMapping(s: Stock, order: nat, item: nat): Result<Stock> {
    if (order, item) in s.mappings || HasActiveMapping(s, item) then Err(Constraint)
    else Ok(s.(mappings := s.mappings[(order, item) := Active]))
  }

  /** One mapping row for each claimed item, whatever the order of insertion. */
  function InsertMappings(s: Stock, order: nat, items: set<nat>): Result<Stock> {
    if exists i :: i in items && ((order, i) in s.mappings || HasActiveMapping(s, i)) then Err(Constraint)
    else Ok(s.(mappings := s.mappings + RowsFor(order, items, Active)))
  }

  /** CountExactReservedInventoryForOrder and the eligible rows of
      MarkExactReservedInventorySold: reserved by the order and actively mapped to it. */
  function Deliverable(s: Stock, order: nat): set<nat> {
    set i: nat | i < |s.items| && s.items[i].state.Reserved? && s.items[i].state.order == order
                 && (order, i) in s.mappings && s.mappings[(order, i)] == Active
  }

  /** MarkExactReservedInventorySold sells all eligible rows or none. */
  function SellExact(s: Stock, order: nat, expected: int): (Stock, set<nat>) {
    var eligible := Deliverable(s, order);
    if |eligible| == expected then (Sell(s, order, eligible), eligible) else (s, {})
  }

  function Sell(s: Stock, order: nat, sold: set<nat>): Stock {
    s.(items := seq(|s.items|, i requires 0 <= i < |s.items| =>
      if i in sold then s.items[i].(state := Sold(order), version := s.items[i].version + 1)
      else s.items[i]))
  }

  /** ListReservedInventoryIDsByOrder. */
  function ReservedBy(s: Stock, order: nat): set<nat> {
    set i: nat | i < |s.items| && s.items[i].state.Reserved? && s.items[i].state.order == order
  }

  function SoldTo(s: Stock, order: nat): set<nat> {
    set i: nat | i < |s.items| && s.items[i].state == Sold(order)
  }

  /** ReleaseReservedInventoryByOrder. */
  function Release(s: Stock, order: nat): Stock {
    s.(items := seq(|s.items|, i requires 0 <= i < |s.items| =>
      if i in ReservedBy(s, order) then s.items[i].(state := Available, version := s.items[i].version + 1)
      else s.items[i]))
  }

  /** The active mappings MarkOrderInventoryMappingsReleased would touch. */
  function ActiveMappings(s: Stock, order: nat, items: set<nat>): set<nat> {
    set i | i in items && (order, i) in s.mappings && s.mappings[(order, i)] == Active
  }

  function ReleaseMappings(s: Stock, order: nat, items: set<nat>, reason: ReleaseReason): Stock {
    s.(mappings := s.mappings + RowsFor(order, ActiveMappings(s, order, items), Released(reason)))
  }

  /** DisableAvailableInventoryItem and EnableDisabledInventoryItem. */
  function SwitchItem(s: Stock, item: nat, version: nat, enable: bool): Result<Stock> {
    if item < |s.items| && s.items[item].version == version
       && s.items[item].state == (if enable then Disabled else Available)
    then
      Ok(s.(items := s.items[item := s.items[item].(
        state := if enable then Available else Disabled, version := version + 1)]))
    else
      Err(NoRows)
  }

  /** InsertEncryptedInventoryItem for the payloads whose fingerprint is new. */
  function ImportItems(s: Stock, product: nat, count: nat): Stock {
    s.(items := s.items + seq(count, _ => Item(product, Available, true, 1)))
  }

  // ---------- what every commit keeps ----------

  /** The order that holds an item: the one that reserved or bought it. */
  function Holder(state: ItemState): Option<nat> {
    match state
    case Reserved(order, _) => Some(order)
    case Sold(order) => Some(order)
    case _ => None
  }

  /** An item is mapped to exactly the order that holds it, actively; an
      available or disabled item is mapped to none. */
  ghost predicate StockOk(s: Stock) {
    && (forall k :: k in s.mappings ==>
        k.1 < |s.items| && Holder(s.items[k.1].state) == Some(k.0) && s.mappings[k] == Active)
    && (forall i :: 0 <= i < |s.items| && Holder(s.items[i].state).Some? ==>
        (Holder(s.items[i].state).value, i) in s.mappings)
  }

  lemma DeliverableIsReserved(s: Stock, order: nat)
    requires StockOk(s)
    ensures Deliverable(s, order) == ReservedBy(s, order)
  {
    forall i | i in ReservedBy(s, order)
      ensures i in Deliverable(s, order)
    {
      assert Holder(s.items[i].state) == Some(order);
    }
  }

  /** The unique constraints never refuse the mappings of a claimed set. */
  lemma ClaimMaps(s: Stock, order: nat, until: Time, product: nat, claimed: set<nat>)
    requires StockOk(s)
    requires claimed <= Claimable(s, product)
    ensures var r := Reserve(s, order, until, claimed);
            && InsertMappings(r, order, claimed).Ok?
            && InsertMappings(r, order, claimed).value.items == r.items
            && InsertMappings(r, order, claimed).value.mappings == s.mappings + RowsFor(order, claimed, Active)
  {
    var r := Reserve(s, order, until, claimed);
    forall i | i in claimed
      ensures !((order, i) in r.mappings || HasActiveMapping(r, i))
    {
      assert i in Claimable(s, product);
    }
  }

  /** Claimed items become held by the order, all others keep their holder. */
  lemma ClaimHolders(s: Stock, order: nat, until: Time, product: nat, claimed: set<nat>)
    requires StockOk(s)
    requires claimed <= Claimable(s, product)
    ensures InsertMappings(Reserve(s, order, until, claimed), order, claimed).Ok?
    ensures StockOk(InsertMappings(Reserve(s, order, until, claimed), order, claimed).value)
  {
    ClaimMaps(s, order, until, product, claimed);
    var s' := InsertMappings(Reserve(s, order, until, claimed), order, claimed).value;
    forall i | 0 <= i < |s'.items| && Holder(s'.items[i].state).Some?
      ensures (Holder(s'.items[i].state).value, i) in s'.mappings
    {
      if i !in claimed {
        assert s'.items[i] == s.items[i];
      }
    }
    forall k | k in s'.mappings
      ensures k.1 < |s'.items| && Holder(s'.items[k.1].state) == Some(k.0) && s'.mappings[k] == Active
    {
      if k in s.mappings {
        assert HasActiveMapping(s, k.1);
        assert k.1 !in claimed;
      }
    }
  }

  lemma SameItemsSameSets(s: Stock, s': Stock, order: nat)
    requires s.items == s'.items
    ensures ReservedBy(s, order) == ReservedBy(s', order)
    ensures SoldTo(s, order) == SoldTo(s', order)
  {
  }

  lemma ReserveSets(s: Stock, order: nat, until: Time, product: nat, claimed: set<nat>, o: nat)
    requires claimed <= Claimable(s, product)
    requires ReservedBy(s, order) == {}
    ensures ReservedBy(Reserve(s, order, until, claimed), o) == if o == order then claimed else ReservedBy(s, o)
    ensures SoldTo(Reserve(s, order, until, claimed), o) == SoldTo(s, o)
  {
    var r := Reserve(s, order, until, claimed);
    forall i | 0 <= i < |s.items|
      ensures i in ReservedBy(r, o) <==> i in (if o == order then claimed else ReservedBy(s, o))
      ensures i in SoldTo(r, o) <==> i in SoldTo(s, o)
    {
      assert i !in ReservedBy(s, order);
      if i in claimed {
        assert s.items[i].state == Available;
      }
    }
  }

  /** Claiming and mapping a full set: the buyer holds exactly that set, every
      other order holds what it held, and soundness is kept. */
  lemma ClaimKeepsStock(s: Stock, order: nat, until: Time, product: nat, claimed: set<nat>)
    requires StockOk(s)
    requires claimed <= Claimable(s, product)
    requires ReservedBy(s, order) == {}
    ensures var mapped := InsertMappings(Reserve(s, order, until, claimed), order, claimed);
            && mapped.Ok?
            && StockOk(mapped.value)
            && |mapped.value.items| == |s.items|
            && ReservedBy(mapped.value, order) == claimed
            && (forall o: nat :: o != order ==> ReservedBy(mapped.value, o) == ReservedBy(s, o))
            && (forall o: nat :: SoldTo(mapped.value, o) == SoldTo(s, o))
  {
    ClaimMaps(s, order, until, product, claimed);
    ClaimHolders(s, order, until, product, claimed);
    var s' := InsertMappings(Reserve(s, order, until, claimed), order, claimed).value;
    forall o: nat
      ensures ReservedBy(s', o) == (if o == order then claimed else ReservedBy(s, o))
      ensures SoldTo(s', o) == SoldTo(s, o)
    {
      ReserveSets(s, order, until, product, claimed, o);
      SameItemsSameSets(s', Reserve(s, order, until, claimed), o);
    }
  }

  /** Selling the reserved set of an order: the set becomes sold to that order,
      every other order keeps what it holds. */
  lemma SellKeepsStock(s: Stock, order: nat)
    requires StockOk(s)
    ensures var s' := Sell(s, order, ReservedBy(s, order));
            && StockOk(s')
            && |s'.items| == |s.items|
            && ReservedBy(s', order) == {}
            && SoldTo(s', order) == SoldTo(s, order) + ReservedBy(s, order)
            && (forall o: nat :: o != order ==> ReservedBy(s', o) == ReservedBy(s, o) && SoldTo(s', o) == SoldTo(s, o))
  {
    var s' := Sell(s, order, ReservedBy(s, order));
    assert forall i :: 0 <= i < |s.items| ==> Holder(s'.items[i].state) == Holder(s.items[i].state);
  }

  /** Switching an item on or off moves no item of any order. */
  lemma SwitchKeepsStock(s: Stock, item: nat, version: nat, enable: bool)
    requires StockOk(s)
    requires SwitchItem(s, item, version, enable).Ok?
    ensures var s' := SwitchItem(s, item, version, enable).value;
            && StockOk(s')
            && |s'.items| == |s.items|
            && (forall o: nat :: ReservedBy(s', o) == ReservedBy(s, o) && SoldTo(s', o) == SoldTo(s, o))
  {
    var s' := SwitchItem(s, item, version, enable).value;
    assert forall i :: 0 <= i < |s.items| ==> Holder(s'.items[i].state) == Holder(s.items[i].state);
  }

  lemma ImportKeepsStock(s: Stock, product: nat, count: nat)
    requires StockOk(s)
    ensures var s' := ImportItems(s, product, count);
            && StockOk(s')
            && s.items <= s'.items
            && (forall o: nat :: ReservedBy(s', o) == ReservedBy(s, o) && SoldTo(s', o) == SoldTo(s, o))
  {
    var s' := ImportItems(s, product, count);
    forall i | 0 <= i < |s'.items| && Holder(s'.items[i].state).Some?
      ensures (Holder(s'.items[i].state).value, i) in s'.mappings
    {
      assert i < |s.items|;
    }
    assert forall i :: |s.items| <= i < |s'.items| ==> s'.items[i].state == Available;
  }
}
