/** Customer redaction and customer data export over the order tables of the database.
    Rows are kept by primary key. */
module GdprRedaction {
  import opened Common

  const REDACTED: string := "[redacted]"

  datatype Order = Order(
    storeId: string, gid: string, name: string, privacyRedacted: bool,
    financialStatus: Option<string>, total: int)

  datatype LineItem = LineItem(
    storeId: string, orderGid: string, title: string, sku: Option<string>, quantity: int, privacyRedacted: bool)

  datatype StoredExport = StoredExport(storeId: string, customerId: string)

  /** A redaction request: the store, the customer and the listed orders. */
  datatype Request = Request(storeId: string, customerId: string, gids: seq<string>)

  datatype Summary = Summary(
    ordersRequested: nat, ordersRedacted: nat, lineItemsRedacted: nat, exportsRemoved: nat, alreadyRedacted: bool)

  type Orders = map<nat, Order>
  type LineItems = map<nat, LineItem>
  type Exports = map<nat, StoredExport>

  predicate Listed(o: Order, r: Request) {
    o.storeId == r.storeId && o.gid in r.gids
  }

  /** Redacted by its flag, or by its name alone. */
  predicate CountsAsRedacted(o: Order) {
    o.privacyRedacted || o.name == REDACTED
  }

  function RedactOrder(o: Order): Order {
    o.(privacyRedacted := true, name := REDACTED, financialStatus := None)
  }

  function RedactLineItem(l: LineItem): LineItem {
    l.(privacyRedacted := true, title := REDACTED, sku := None)
  }

  /** The database promises it: a store has at most one order of a Shopify id. */
  ghost predicate UniqueOrders(orders: Orders) {
    forall a, b | a in orders && b in orders && orders[a].storeId == orders[b].storeId &&
      orders[a].gid == orders[b].gid :: a == b
  }

  // ----- What a redaction leaves behind -----

  predicate OrderChanges(o: Order, r: Request) {
    Listed(o, r) && !CountsAsRedacted(o)
  }

  /** A line item changes if it is not redacted and its order exists and is listed. */
  predicate LineItemChanges(l: LineItem, orders: Orders, r: Request) {
    && l.storeId == r.storeId && !l.privacyRedacted && l.orderGid in r.gids
    && exists id :: id in orders && orders[id].storeId == r.storeId && orders[id].gid == l.orderGid
  }

  function OrdersAfter(orders: Orders, r: Request): Orders {
    map id | id in orders :: if OrderChanges(orders[id], r) then RedactOrder(orders[id]) else orders[id]
  }

  function LineItemsAfter(items: LineItems, orders: Orders, r: Request): LineItems {
    map id | id in items :: if LineItemChanges(items[id], orders, r) then RedactLineItem(items[id]) else items[id]
  }

  function ExportsAfter(exports: Exports, r: Request): Exports {
    map id | id in exports && !(exports[id].storeId == r.storeId && exports[id].customerId == r.customerId) ::
      exports[id]
  }

  function ChangedOrders(orders: Orders, r: Request): set<nat> {
    set id | id in orders && OrderChanges(orders[id], r)
  }

  function ChangedLineItems(items: LineItems, orders: Orders, r: Request): set<nat> {
    set id | id in items && LineItemChanges(items[id], orders, r)
  }

  function RemovedExports(exports: Exports, r: Request): set<nat> {
    set id | id in exports && exports[id].storeId == r.storeId && exports[id].customerId == r.customerId
  }

  function ListedIds(orders: Orders, r: Request): set<nat> {
    set id | id in orders && Listed(orders[id], r)
  }

  /** The rows `changed` of a table are the ones updated so far. */
  ghost predicate Progress<T>(before: map<nat, T>, now: map<nat, T>, changed: set<nat>, update: T -> T) {
    now.Keys == before.Keys && forall id | id in before ::
      now[id] == if id in changed then update(before[id]) else before[id]
  }

  class Database {
    var orders: Orders
    var lineItems: LineItems
    var exports: Exports

    constructor (orders: Orders, lineItems: LineItems, exports: Exports)
      ensures this.orders == orders && this.lineItems == lineItems && this.exports == exports
    {
      this.orders := orders;
      this.lineItems := lineItems;
      this.exports := exports;
    }

    /** Redacts the unredacted line items of one order; returns how many there were. */
    method RedactLineItemsOf(storeId: string, gid: string) returns (count: nat)
      modifies this`lineItems
      ensures count == |OpenItems(old(lineItems), storeId, gid)|
      ensures Progress(old(lineItems), lineItems, OpenItems(old(lineItems), storeId, gid), RedactLineItem)
    {
      var open := OpenItems(lineItems, storeId, gid);
      count := |open|;
      lineItems := map id | id in lineItems :: if id in open then RedactLineItem(lineItems[id]) else lineItems[id];
    }

    method DeleteExports(r: Request) returns (count: nat)
      modifies this`exports
      ensures exports == ExportsAfter(old(exports), r)
      ensures count == |RemovedExports(old(exports), r)|
    {
      count := |RemovedExports(exports, r)|;
      exports := ExportsAfter(exports, r);
    }

    /** One order and its line items. */
    method RedactOne(id: nat, storeId: string) returns (changed: bool, count: nat)
      requires id in orders
      modifies this`orders, this`lineItems
      ensures changed <==> !CountsAsRedacted(old(orders)[id])
      ensures orders == if changed then old(orders)[id := RedactOrder(old(orders)[id])] else old(orders)
      ensures count == |OpenItems(old(lineItems), storeId, old(orders)[id].gid)|
      ensures Progress(old(lineItems), lineItems, OpenItems(old(lineItems), storeId, old(orders)[id].gid),
        RedactLineItem)
    {
      changed := !CountsAsRedacted(orders[id]);
      if changed {
        orders := orders[id := RedactOrder(orders[id])];
      }
      count := RedactLineItemsOf(storeId, orders[id].gid);
    }

    /** Redacts the listed orders one by one, in whatever order the database returns them, each
        with its line items. */
    method RedactListed(r: Request) returns (ordersRedacted: nat, lineItemsRedacted: nat, alreadyRedacted: bool)
      modifies this`orders, this`lineItems
      ensures orders == OrdersAfter(old(orders), r)
      ensures lineItems == LineItemsAfter(old(lineItems), old(orders), r)
      ensures ordersRedacted == |ChangedOrders(old(orders), r)|
      ensures lineItemsRedacted == |ChangedLineItems(old(lineItems), old(orders), r)|
      ensures alreadyRedacted <==> ListedIds(old(orders), r) != {} && ChangedOrders(old(orders), r) == {}
    {
      ghost var orders0, items0 := orders, lineItems;
      var listed := ListedIds(orders, r);
      var rest := listed;
      ordersRedacted, lineItemsRedacted := 0, 0;
      alreadyRedacted := listed != {};
      ghost var seen: set<nat> := {};
      while rest != {}
        invariant rest <= listed && seen == listed - rest
        invariant DoneSoFar(orders0, items0, r.storeId, seen, orders, lineItems, ordersRedacted, lineItemsRedacted)
        invariant alreadyRedacted <==> listed != {} && ordersRedacted == 0
        decreases rest
      {
        var id :| id in rest;
        rest := rest - {id};
        ghost var ordersBefore, itemsBefore := orders, lineItems;
        var changed, count := RedactOne(id, r.storeId);
        DoneStep(orders0, items0, r.storeId, seen, ordersBefore, itemsBefore, orders, lineItems,
                 ordersRedacted, lineItemsRedacted, id, changed, count);
        if changed {
          alreadyRedacted := false;
          ordersRedacted := ordersRedacted + 1;
        }
        lineItemsRedacted := lineItemsRedacted + count;
        seen := seen + {id};
      }
      assert seen == listed;
      DoneIsAll(orders0, items0, r);
    }

    /** Redaction of a customer: the listed orders with their line items, and the customer's
        stored exports. The counts are the numbers of rows changed and removed. */
    method RedactCustomerOrders(r: Request) returns (summary: Summary)
      modifies this
      ensures orders == OrdersAfter(old(orders), r)
      ensures lineItems == LineItemsAfter(old(lineItems), old(orders), r)
      ensures exports == ExportsAfter(old(exports), r)
      ensures summary.ordersRequested == |r.gids|
      ensures summary.ordersRedacted == |ChangedOrders(old(orders), r)|
      ensures summary.lineItemsRedacted == |ChangedLineItems(old(lineItems), old(orders), r)|
      ensures summary.exportsRemoved == |RemovedExports(old(exports), r)|
      ensures summary.alreadyRedacted <==>
        SomeListed(old(orders), r) && orders == old(orders) && lineItems == old(lineItems)
      ensures OrdersAreRedacted(old(orders), orders, r) && LineItemsAreRedacted(old(lineItems), lineItems, orders, r)
      ensures ExportsAreRemoved(old(exports), exports, r)
      ensures summary.ordersRedacted == |set id | id in orders && old(orders)[id] != orders[id]|
      ensures summary.lineItemsRedacted == |set id | id in lineItems && old(lineItems)[id] != lineItems[id]|
      ensures summary.exportsRemoved == |old(exports)| - |exports|
    {
      AlreadyRedactedIff(orders, lineItems, r);
      RedactionWrites(orders, lineItems, exports, r);
      RowsThatDiffer(orders, lineItems, exports, r);
      if |r.gids| == 0 {
        assert ListedIds(orders, r) == ChangedOrders(orders, r) == ChangedLineItems(lineItems, orders, r) == {};
        var removed := DeleteExports(r);
        return Summary(0, 0, 0, removed, false);
      }
      var ordersRedacted, lineItemsRedacted, alreadyRedacted := RedactListed(r);
      var removed := DeleteExports(r);
      summary := Summary(|r.gids|, ordersRedacted, lineItemsRedacted, removed,
                         alreadyRedacted && ordersRedacted == 0 && lineItemsRedacted == 0);
    }
  }

  predicate OpenItem(l: LineItem, storeId: string, gid: string) {
    l.storeId == storeId && l.orderGid == gid && !l.privacyRedacted
  }

  function OpenItems(items: LineItems, storeId: string, gid: string): set<nat> {
    set id | id in items && OpenItem(items[id], storeId, gid)
  }

  lemma AlreadyRedactedIff(orders: Orders, items: LineItems, r: Request)
    ensures OrdersAfter(orders, r) == orders <==> ChangedOrders(orders, r) == {}
    ensures LineItemsAfter(items, orders, r) == items <==> ChangedLineItems(items, orders, r) == {}
  {
    if id :| id in ChangedOrders(orders, r) {
      assert OrdersAfter(orders, r)[id] != orders[id];
    } else {
      assert forall id | id in orders :: id !in ChangedOrders(orders, r);
    }
    if id :| id in ChangedLineItems(items, orders, r) {
      assert LineItemsAfter(items, orders, r)[id] != items[id];
    } else {
      assert forall id | id in items :: id !in ChangedLineItems(items, orders, r);
    }
  }

  /** The orders among `ids` that are not redacted. */
  ghost function Unredacted(orders: Orders, ids: set<nat>): set<nat>
    requires ids <= orders.Keys
  {
    set id | id in ids && !CountsAsRedacted(orders[id])
  }

  lemma ExtendUnredacted(orders: Orders, ids: set<nat>, id: nat)
    requires ids <= orders.Keys && id in orders && id !in ids
    ensures id !in Unredacted(orders, ids)
    ensures Unredacted(orders, ids + {id}) ==
      Unredacted(orders, ids) + (if CountsAsRedacted(orders[id]) then {} else {id})
  {}

  /** The unredacted line items of the given orders. */
  ghost function ItemsOf(items: LineItems, orders: Orders, ids: set<nat>, storeId: string): set<nat>
    requires ids <= orders.Keys
  {
    set l | l in items && exists id :: id in ids && OpenItem(items[l], storeId, orders[id].gid)
  }

  /** The open line items of one more order are new, and complete those done so far. */
  lemma ExtendDone(
    items0: LineItems, orders: Orders, items: LineItems, after: LineItems, done: set<nat>, ids: set<nat>, id: nat,
    storeId: string)
    requires ids <= orders.Keys && id in orders
    requires Progress(items0, items, done, RedactLineItem)
    requires Progress(items, after, OpenItems(items, storeId, orders[id].gid), RedactLineItem)
    requires done == ItemsOf(items0, orders, ids, storeId)
    ensures
      var open := OpenItems(items, storeId, orders[id].gid);
      && open !! done
      && done + open == ItemsOf(items0, orders, ids + {id}, storeId)
      && Progress(items0, after, done + open, RedactLineItem)
  {}

  /** The rows and the counts after the orders `seen`. */
  ghost predicate DoneSoFar(
    orders0: Orders, items0: LineItems, storeId: string, seen: set<nat>,
    orders: Orders, items: LineItems, ordersRedacted: nat, lineItemsRedacted: nat)
  {
    && seen <= orders0.Keys
    && Progress(orders0, orders, Unredacted(orders0, seen), RedactOrder)
    && Progress(items0, items, ItemsOf(items0, orders0, seen, storeId), RedactLineItem)
    && ordersRedacted == |Unredacted(orders0, seen)|
    && lineItemsRedacted == |ItemsOf(items0, orders0, seen, storeId)|
  }

  lemma DoneStep(
    orders0: Orders, items0: LineItems, storeId: string, seen: set<nat>,
    orders: Orders, items: LineItems, orders': Orders, items': LineItems,
    ordersRedacted: nat, lineItemsRedacted: nat, id: nat, changed: bool, count: nat)
    requires DoneSoFar(orders0, items0, storeId, seen, orders, items, ordersRedacted, lineItemsRedacted)
    requires id in orders0 && id !in seen
    requires changed <==> !CountsAsRedacted(orders[id])
    requires orders' == if changed then orders[id := RedactOrder(orders[id])] else orders
    requires count == |OpenItems(items, storeId, orders[id].gid)|
    requires Progress(items, items', OpenItems(items, storeId, orders[id].gid), RedactLineItem)
    ensures DoneSoFar(orders0, items0, storeId, seen + {id}, orders', items',
                      ordersRedacted + (if changed then 1 else 0), lineItemsRedacted + count)
  {
    assert orders[id] == orders0[id];
    ExtendUnredacted(orders0, seen, id);
    ExtendDone(items0, orders0, items, items', ItemsOf(items0, orders0, seen, storeId), seen, id, storeId);
  }

  lemma DoneIsAll(orders: Orders, items: LineItems, r: Request)
    ensures Unredacted(orders, ListedIds(orders, r)) == ChangedOrders(orders, r)
    ensures ItemsOf(items, orders, ListedIds(orders, r), r.storeId) == ChangedLineItems(items, orders, r)
    ensures forall now: Orders | Progress(orders, now, ChangedOrders(orders, r), RedactOrder) ::
      now == OrdersAfter(orders, r)
    ensures forall now: LineItems | Progress(items, now, ChangedLineItems(items, orders, r), RedactLineItem) ::
      now == LineItemsAfter(items, orders, r)
  {}

  // ----- What a redaction writes, row by row -----

  /** A listed order of the store that is not redacted loses its name and financial status and is flagged;
      every other order is as it was. */
  ghost predicate OrdersAreRedacted(was: Orders, now: Orders, r: Request) {
    && now.Keys == was.Keys
    && forall id | id in was ::
         if was[id].storeId == r.storeId && was[id].gid in r.gids && !was[id].privacyRedacted &&
           was[id].name != "[redacted]"
         then now[id] == Order(was[id].storeId, was[id].gid, "[redacted]", true, None, was[id].total)
         else now[id] == was[id]
  }

  ghost predicate SomeListed(orders: Orders, r: Request) {
    exists id :: id in orders && orders[id].storeId == r.storeId && orders[id].gid in r.gids
  }

  /** The order of this Shopify id is listed, and exists. */
  ghost predicate OfListedOrder(orders: Orders, r: Request, gid: string) {
    gid in r.gids && exists id :: id in orders && orders[id].storeId == r.storeId && orders[id].gid == gid
  }

  /** A line item without the flag of a listed order that exists loses its title and SKU and is flagged;
      every other is as it was, and none without the flag is left to such an order. */
  ghost predicate LineItemsAreRedacted(was: LineItems, now: LineItems, orders: Orders, r: Request) {
    && now.Keys == was.Keys
    && (forall id | id in was ::
          if was[id].storeId == r.storeId && !was[id].privacyRedacted && OfListedOrder(orders, r, was[id].orderGid)
          then now[id] == LineItem(was[id].storeId, was[id].orderGid, "[redacted]", None, was[id].quantity, true)
          else now[id] == was[id])
    && (forall id | id in now && now[id].storeId == r.storeId && OfListedOrder(orders, r, now[id].orderGid) ::
          now[id].privacyRedacted)
  }

  /** The stored exports of the customer are gone, and every other is as it was. */
  ghost predicate ExportsAreRemoved(was: Exports, now: Exports, r: Request) {
    && (forall id | id in now :: id in was && now[id] == was[id])
    && (forall id | id in was :: id in now <==> was[id].storeId != r.storeId || was[id].customerId != r.customerId)
  }

  lemma RedactionWrites(orders: Orders, items: LineItems, exports: Exports, r: Request)
    ensures OrdersAreRedacted(orders, OrdersAfter(orders, r), r)
    ensures LineItemsAreRedacted(items, LineItemsAfter(items, orders, r), OrdersAfter(orders, r), r)
    ensures ExportsAreRemoved(exports, ExportsAfter(exports, r), r)
  {
    var after := OrdersAfter(orders, r);
    forall gid ensures OfListedOrder(after, r, gid) <==> OfListedOrder(orders, r, gid) {
      SameListedOrders(orders, r, gid);
    }
    forall id | id in items
      ensures LineItemChanges(items[id], orders, r) <==>
        items[id].storeId == r.storeId && !items[id].privacyRedacted && OfListedOrder(after, r, items[id].orderGid)
    {
      SameListedOrders(orders, r, items[id].orderGid);
    }
  }

  lemma SameListedOrders(orders: Orders, r: Request, gid: string)
    ensures OfListedOrder(OrdersAfter(orders, r), r, gid) <==> OfListedOrder(orders, r, gid)
  {
    var after := OrdersAfter(orders, r);
    assert forall id | id in orders :: after[id].gid == orders[id].gid && after[id].storeId == orders[id].storeId;
  }

  /** The rows counted are those that differ, and the exports counted those that are gone. */
  lemma RowsThatDiffer(orders: Orders, items: LineItems, exports: Exports, r: Request)
    ensures
      var orders', items' := OrdersAfter(orders, r), LineItemsAfter(items, orders, r);
      && ChangedOrders(orders, r) == (set id | id in orders' && orders[id] != orders'[id])
      && ChangedLineItems(items, orders, r) == (set id | id in items' && items[id] != items'[id])
    ensures |RemovedExports(exports, r)| == |exports| - |ExportsAfter(exports, r)|
    ensures ListedIds(orders, r) != {} <==> SomeListed(orders, r)
  {
    if id :| id in orders && orders[id].storeId == r.storeId && orders[id].gid in r.gids {
      assert id in ListedIds(orders, r);
    }
    var after := ExportsAfter(exports, r);
    assert exports.Keys == after.Keys + RemovedExports(exports, r) && after.Keys !! RemovedExports(exports, r);
    assert |exports.Keys| == |exports| && |after.Keys| == |after|;
  }

  // ----- What redaction guarantees -----

  /** Redaction keeps the database's uniqueness promise, and touches no order of another store,
      no order that is not listed, and no amount or quantity. */
  lemma RedactionIsFramed(orders: Orders, items: LineItems, exports: Exports, r: Request)
    ensures UniqueOrders(orders) ==> UniqueOrders(OrdersAfter(orders, r))
    ensures OrdersAfter(orders, r).Keys == orders.Keys && LineItemsAfter(items, orders, r).Keys == items.Keys
    ensures forall id | id in orders && !Listed(orders[id], r) :: OrdersAfter(orders, r)[id] == orders[id]
    ensures forall id | id in items && !(items[id].storeId == r.storeId && items[id].orderGid in r.gids) ::
      LineItemsAfter(items, orders, r)[id] == items[id]
    ensures forall id | id in exports &&
      !(exports[id].storeId == r.storeId && exports[id].customerId == r.customerId) ::
      id in ExportsAfter(exports, r) && ExportsAfter(exports, r)[id] == exports[id]
    ensures forall id | id in orders :: OrdersAfter(orders, r)[id].total == orders[id].total
    ensures forall id | id in items :: LineItemsAfter(items, orders, r)[id].quantity == items[id].quantity
  {}

  /** A second redaction with the same request changes nothing and removes nothing. */
  lemma RedactionIsIdempotent(orders: Orders, items: LineItems, exports: Exports, r: Request)
    ensures
      var orders', items', exports' :=
        OrdersAfter(orders, r), LineItemsAfter(items, orders, r), ExportsAfter(exports, r);
      && OrdersAfter(orders', r) == orders' && LineItemsAfter(items', orders', r) == items'
      && ExportsAfter(exports', r) == exports'
      && ChangedOrders(orders', r) == {} && ChangedLineItems(items', orders', r) == {} &&
        RemovedExports(exports', r) == {}
  {}

  // ----- Export -----

  datatype ExportOrder = ExportOrder(gid: string, name: string, total: int)

  datatype ExportLineItem = ExportLineItem(orderGid: string, title: string, sku: Option<string>, quantity: int)

  /** A customer data export; webhook records are never included. */
  datatype CustomerExport = CustomerExport(
    orders: map<nat, ExportOrder>, lineItems: map<nat, ExportLineItem>, webhookRecords: seq<string>)

  predicate Exported(o: Order, storeId: string, gids: seq<string>) {
    o.storeId == storeId && !o.privacyRedacted && o.gid in gids
  }

  function FoundGids(orders: Orders, storeId: string, gids: seq<string>): set<string> {
    set id | id in orders && Exported(orders[id], storeId, gids) :: orders[id].gid
  }

  function GatherExport(orders: Orders, items: LineItems, storeId: string, gids: seq<string>): CustomerExport {
    var found := FoundGids(orders, storeId, gids);
    CustomerExport(
      map id | id in orders && Exported(orders[id], storeId, gids) ::
        ExportOrder(orders[id].gid, orders[id].name, orders[id].total),
      map id | id in items && items[id].storeId == storeId && items[id].orderGid in found ::
        ExportLineItem(items[id].orderGid, items[id].title, items[id].sku, items[id].quantity),
      [])
  }

  datatype ScopeError = OrderOutOfScope | LineItemOutOfScope | WebhookMetadataForbidden

  function ValidateScope(e: CustomerExport, gids: seq<string>): Option<ScopeError> {
    if exists id :: id in e.orders && e.orders[id].gid !in gids then Some(OrderOutOfScope)
    else if exists id :: id in e.lineItems && e.lineItems[id].orderGid !in gids then Some(LineItemOutOfScope)
    else if e.webhookRecords != [] then Some(WebhookMetadataForbidden)
    else None
  }

  /** An export holds exactly the listed orders of the store without the flag, and the line items of those
      orders, each with its own values and nothing of the webhooks. */
  lemma ExportInPlainTerms(orders: Orders, items: LineItems, storeId: string, gids: seq<string>)
    ensures
      var e := GatherExport(orders, items, storeId, gids);
      && (forall id :: id in e.orders <==>
            id in orders && orders[id].storeId == storeId && orders[id].gid in gids && !orders[id].privacyRedacted)
      && (forall id | id in e.orders ::
            e.orders[id] == ExportOrder(orders[id].gid, orders[id].name, orders[id].total))
      && (forall l :: l in e.lineItems <==>
            && l in items && items[l].storeId == storeId
            && exists id :: id in e.orders && e.orders[id].gid == items[l].orderGid)
      && (forall l | l in e.lineItems ::
            e.lineItems[l] == ExportLineItem(items[l].orderGid, items[l].title, items[l].sku, items[l].quantity))
      && e.webhookRecords == []
  {
    var e := GatherExport(orders, items, storeId, gids);
    forall l | l in items && items[l].storeId == storeId
      ensures items[l].orderGid in FoundGids(orders, storeId, gids) <==>
        exists id :: id in e.orders && e.orders[id].gid == items[l].orderGid
    {
      if id :| id in e.orders && e.orders[id].gid == items[l].orderGid {
        assert Exported(orders[id], storeId, gids);
      }
      if items[l].orderGid in FoundGids(orders, storeId, gids) {
        var id :| id in orders && Exported(orders[id], storeId, gids) && orders[id].gid == items[l].orderGid;
        assert id in e.orders;
      }
    }
  }

  /** The check passes exactly the exports whose orders and line items are all requested and that hold no
      webhook record; it names the first of the three that fails. */
  lemma ScopeInPlainTerms(e: CustomerExport, gids: seq<string>)
    ensures
      var verdict := ValidateScope(e, gids);
      var ordersIn := forall id | id in e.orders :: e.orders[id].gid in gids;
      var itemsIn := forall id | id in e.lineItems :: e.lineItems[id].orderGid in gids;
      && (verdict == Some(OrderOutOfScope) <==> !ordersIn)
      && (verdict == Some(LineItemOutOfScope) <==> ordersIn && !itemsIn)
      && (verdict == Some(WebhookMetadataForbidden) <==> ordersIn && itemsIn && e.webhookRecords != [])
      && (verdict == None <==> ordersIn && itemsIn && e.webhookRecords == [])
  {}

  /** Every export that is gathered passes the scope check, and every line item in it belongs to
      an order in it. */
  lemma GatheredExportsAreInScope(orders: Orders, items: LineItems, storeId: string, gids: seq<string>)
    ensures
      var e := GatherExport(orders, items, storeId, gids);
      && ValidateScope(e, gids) == None
      && forall l | l in e.lineItems :: exists o :: o in e.orders && e.orders[o].gid == e.lineItems[l].orderGid
  {
    var e := GatherExport(orders, items, storeId, gids);
    forall l | l in e.lineItems ensures exists o :: o in e.orders && e.orders[o].gid == e.lineItems[l].orderGid {
      var o :| o in orders && Exported(orders[o], storeId, gids) && orders[o].gid == e.lineItems[l].orderGid;
      assert o in e.orders;
    }
  }

  /** An order whose name already reads "[redacted]" while its flag is off. */
  predicate NamedButNotFlagged(o: Order, r: Request) {
    Listed(o, r) && o.name == REDACTED && !o.privacyRedacted
  }

  /** After a redaction an export of the same orders is empty exactly when no listed order
      carried the name "[redacted]" without the flag: such an order is skipped as done, its flag
      stays off, and it is still exported. */
  lemma ExportAfterRedactionIsEmptyIff(orders: Orders, items: LineItems, r: Request)
    ensures
      var e := GatherExport(OrdersAfter(orders, r), LineItemsAfter(items, orders, r), r.storeId, r.gids);
      (e.orders == map[] && e.lineItems == map[]) <==> forall id | id in orders :: !NamedButNotFlagged(orders[id], r)
  {
    var after := OrdersAfter(orders, r);
    var e := GatherExport(after, LineItemsAfter(items, orders, r), r.storeId, r.gids);
    forall id | id in orders
      ensures Exported(after[id], r.storeId, r.gids) <==> NamedButNotFlagged(orders[id], r)
    {
    }
    if id :| id in orders && NamedButNotFlagged(orders[id], r) {
      assert id in e.orders;
    } else {
      assert e.orders == map[];
      assert FoundGids(after, r.storeId, r.gids) == {};
    }
  }

  /** Such an order, by example: it is still exported after its redaction. */
  lemma NamedOrderIsStillExported(o: Order, r: Request)
    requires o.storeId == r.storeId && o.gid in r.gids && o.name == REDACTED && !o.privacyRedacted
    ensures 0 in GatherExport(OrdersAfter(map[0 := o], r), map[], r.storeId, r.gids).orders
  {}

  /** Redaction itself never creates such an order, so from a database without one any number of
      redactions, whatever their order, leaves nothing to export for any of their requests. */
  lemma {:induction false} RedactionsKeepNamesFlagged(orders: Orders, items: LineItems, requests: seq<Request>)
    requires NamesFlagged(orders)
    ensures NamesFlagged(AfterAll(orders, requests))
    ensures forall r | r in requests ::
      var e := GatherExport(AfterAll(orders, requests), items, r.storeId, r.gids);
      e.orders == map[] && e.lineItems == map[]
  {
    if requests != [] {
      var n := |requests| - 1;
      var before, after, last := AfterAll(orders, requests[..n]), AfterAll(orders, requests), requests[n];
      RedactionsKeepNamesFlagged(orders, items, requests[..n]);
      RedactionKeepsNamesFlagged(before, last);
      forall r | r in requests ensures NothingToExport(after, r.storeId, r.gids) {
        if r in requests[..n] {
          EmptyExportIff(before, items, r);
          StaysEmpty(before, last, r);
        } else {
          assert r == last;
        }
      }
      forall r | r in requests
        ensures
          var e := GatherExport(after, items, r.storeId, r.gids);
          e.orders == map[] && e.lineItems == map[]
      {
        EmptyExportIff(after, items, r);
      }
    }
  }

  predicate NothingToExport(orders: Orders, storeId: string, gids: seq<string>) {
    forall id | id in orders :: !Exported(orders[id], storeId, gids)
  }

  lemma EmptyExportIff(orders: Orders, items: LineItems, r: Request)
    ensures
      var e := GatherExport(orders, items, r.storeId, r.gids);
      (e.orders == map[] && e.lineItems == map[]) <==> NothingToExport(orders, r.storeId, r.gids)
  {
    var e := GatherExport(orders, items, r.storeId, r.gids);
    if id :| id in orders && Exported(orders[id], r.storeId, r.gids) {
      assert id in e.orders;
    } else {
      assert FoundGids(orders, r.storeId, r.gids) == {};
    }
  }

  lemma StaysEmpty(orders: Orders, last: Request, r: Request)
    requires NothingToExport(orders, r.storeId, r.gids)
    ensures NothingToExport(OrdersAfter(orders, last), r.storeId, r.gids)
  {}

  predicate NamesFlagged(orders: Orders) {
    forall id | id in orders :: orders[id].name == REDACTED ==> orders[id].privacyRedacted
  }

  lemma RedactionKeepsNamesFlagged(orders: Orders, r: Request)
    requires NamesFlagged(orders)
    ensures NamesFlagged(OrdersAfter(orders, r))
  {}

  function AfterAll(orders: Orders, requests: seq<Request>): Orders {
    if requests == [] then orders
    else OrdersAfter(AfterAll(orders, requests[..|requests| - 1]), requests[|requests| - 1])
  }
}
