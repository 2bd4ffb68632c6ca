/** The purchase-order service: recalculation of an order's three amounts from
    its live items, the audited update that triggers it, and the "last order
    for a product" queries that seed automatic reorders. */
module PurchaseOrderService {
  import opened Entities
  import opened Data

  // ---------------------------------------------------------------------------
  // Parent-total recalculation

  /** The order row the recalculation loads: its key equals `masterId` (a null
      id matches no row) and it is not soft-deleted. */
  predicate IsMaster(o: PurchaseOrder, masterId: Option<int>)
  {
    masterId.Some? && o.id == masterId.value && o.isNotDeleted
  }

  /** Position of the row `FirstOrDefaultAsync` returns for the master query. */
  function MasterIndex(orders: seq<PurchaseOrder>, masterId: Option<int>): (r: Option<nat>)
    ensures r.None? <==> forall j :: 0 <= j < |orders| ==> !IsMaster(orders[j], masterId)
    ensures r.Some? ==> r.value < |orders| && IsMaster(orders[r.value], masterId)
    ensures r.Some? ==> forall j :: 0 <= j < r.value ==> !IsMaster(orders[j], masterId)
  {
    if |orders| == 0 then None
    else if IsMaster(orders[0], masterId) then Some(0)
    else match MasterIndex(orders[1..], masterId)
      case None => None
      case Some(k) => Some(k + 1)
  }

  /** An item the recalculation sums: it belongs to `masterId` and is not soft-deleted. */
  predicate IsChild(item: PurchaseOrderItem, masterId: Option<int>)
  {
    masterId.Some? && item.purchaseOrderId == masterId.value && item.isNotDeleted
  }

  /** The items query, in table order. */
  function Children(items: seq<PurchaseOrderItem>, masterId: Option<int>): seq<PurchaseOrderItem>
  {
    if |items| == 0 then []
    else (if IsChild(items[0], masterId) then [items[0]] else []) + Children(items[1..], masterId)
  }

  /** The items summed are exactly the table's live items of this order. */
  lemma {:induction false} ChildrenMeaning(items: seq<PurchaseOrderItem>, masterId: Option<int>, x: PurchaseOrderItem)
    ensures x in Children(items, masterId) <==> x in items && IsChild(x, masterId)
  {
    if |items| > 0 {
      ChildrenMeaning(items[1..], masterId, x);
      assert items == [items[0]] + items[1..];
    }
  }

  /** The value the accumulation loop leaves in `BeforeTaxAmount`: start from 0
      and add each item's `Total` in turn with lifted `+`. */
  function SumTotals(childs: seq<PurchaseOrderItem>): Option<real>
  {
    if |childs| == 0 then Some(0.0)
    else Plus(SumTotals(childs[..|childs| - 1]), childs[|childs| - 1].total)
  }

  /** Every item has a non-null `Total`. */
  predicate TotalsKnown(childs: seq<PurchaseOrderItem>)
  {
    forall i :: 0 <= i < |childs| ==> childs[i].total.Some?
  }

  /** The arithmetic sum of the item totals, added from the first item on. */
  function RealSum(childs: seq<PurchaseOrderItem>): real
    requires TotalsKnown(childs)
  {
    if |childs| == 0 then 0.0 else childs[0].total.value + RealSum(childs[1..])
  }

  lemma {:induction false} RealSumSnoc(s: seq<PurchaseOrderItem>, x: PurchaseOrderItem)
    requires TotalsKnown(s + [x])
    ensures TotalsKnown(s) && x.total.Some?
    ensures RealSum(s + [x]) == RealSum(s) + x.total.value
  {
    assert (s + [x])[|s|] == x;
    assert forall i :: 0 <= i < |s| ==> (s + [x])[i] == s[i];
    if |s| > 0 {
      assert (s + [x])[1..] == s[1..] + [x];
      RealSumSnoc(s[1..], x);
    }
  }

  /** The accumulated amount is null exactly when some item's total is null;
      otherwise it is the plain sum of the totals. */
  lemma {:induction false} SumTotalsMeaning(childs: seq<PurchaseOrderItem>)
    ensures SumTotals(childs) == if TotalsKnown(childs) then Some(RealSum(childs)) else None
  {
    if |childs| > 0 {
      var init, last := childs[..|childs| - 1], childs[|childs| - 1];
      assert childs == init + [last];
      assert forall i :: 0 <= i < |init| ==> init[i] == childs[i];
      SumTotalsMeaning(init);
      if TotalsKnown(childs) {
        RealSumSnoc(init, last);
      }
    }
  }

  /** The items query distributes over a split of the table. */
  lemma {:induction false} ChildrenAppend(a: seq<PurchaseOrderItem>, b: seq<PurchaseOrderItem>, masterId: Option<int>)
    ensures Children(a + b, masterId) == Children(a, masterId) + Children(b, masterId)
  {
    if |a| == 0 {
      assert a + b == b;
    } else {
      assert (a + b)[0] == a[0];
      assert (a + b)[1..] == a[1..] + b;
      ChildrenAppend(a[1..], b, masterId);
    }
  }

  /** The master row after the recalculation's three assignments. */
  function Recalculated(master: PurchaseOrder, tax: Option<Tax>, childs: seq<PurchaseOrderItem>): PurchaseOrder
  {
    var before := SumTotals(childs);
    var taxAmount := if tax.Some? then Times(Rate(tax.value.percentage), before) else master.taxAmount;
    master.(beforeTaxAmount := before, taxAmount := taxAmount, afterTaxAmount := Plus(before, taxAmount))
  }

  /** The order table after `RecalculateParentAsync(masterId)`. */
  function RecalculateOrders(
    orders: seq<PurchaseOrder>, items: seq<PurchaseOrderItem>, taxes: seq<Tax>, masterId: Option<int>)
    : (r: seq<PurchaseOrder>)
    ensures |r| == |orders|
    ensures MasterIndex(orders, masterId).None? ==> r == orders
    ensures forall j :: 0 <= j < |orders| && MasterIndex(orders, masterId) != Some(j) ==> r[j] == orders[j]
    ensures MasterIndex(orders, masterId).Some? ==>
      var k := MasterIndex(orders, masterId).value;
      var tax := FindTax(taxes, orders[k].taxId);
      && r[k] == orders[k].(beforeTaxAmount := r[k].beforeTaxAmount, taxAmount := r[k].taxAmount,
                            afterTaxAmount := r[k].afterTaxAmount)
      && r[k].beforeTaxAmount == SumTotals(Children(items, masterId))
      && (tax.Some? ==> r[k].taxAmount == Times(Rate(tax.value.percentage), r[k].beforeTaxAmount))
      && (tax.None? ==> r[k].taxAmount == orders[k].taxAmount)
      && r[k].afterTaxAmount == Plus(r[k].beforeTaxAmount, r[k].taxAmount)
  {
    match MasterIndex(orders, masterId)
    case None => orders
    case Some(k) =>
      orders[k := Recalculated(orders[k], FindTax(taxes, orders[k].taxId), Children(items, masterId))]
  }

  /** The master query only looks at keys and soft-delete flags. */
  lemma {:induction false} MasterIndexSameKeys(a: seq<PurchaseOrder>, b: seq<PurchaseOrder>, masterId: Option<int>)
    requires |a| == |b|
    requires forall j :: 0 <= j < |a| ==> a[j].id == b[j].id && a[j].isNotDeleted == b[j].isNotDeleted
    ensures MasterIndex(a, masterId) == MasterIndex(b, masterId)
  {
    if |a| > 0 {
      MasterIndexSameKeys(a[1..], b[1..], masterId);
    }
  }

  /** Recalculating twice gives the same table as recalculating once. */
  lemma RecalculateIdempotent(
    orders: seq<PurchaseOrder>, items: seq<PurchaseOrderItem>, taxes: seq<Tax>, masterId: Option<int>)
    ensures var once := RecalculateOrders(orders, items, taxes, masterId);
      RecalculateOrders(once, items, taxes, masterId) == once
  {
    var once := RecalculateOrders(orders, items, taxes, masterId);
    MasterIndexSameKeys(orders, once, masterId);
  }

  /** An item that is soft-deleted or belongs to another order does not affect
      the recalculation, wherever it stands in the table. */
  lemma RecalculateIgnoresNonChild(
    orders: seq<PurchaseOrder>, items: seq<PurchaseOrderItem>, taxes: seq<Tax>, masterId: Option<int>,
    k: nat, x: PurchaseOrderItem)
    requires k <= |items|
    requires !IsChild(x, masterId)
    ensures RecalculateOrders(orders, items[..k] + [x] + items[k..], taxes, masterId)
         == RecalculateOrders(orders, items, taxes, masterId)
  {
    var front, back := items[..k], items[k..];
    ChildrenAppend(front + [x], back, masterId);
    ChildrenAppend(front, [x], masterId);
    ChildrenAppend(front, back, masterId);
    assert Children([x], masterId) == [] by {
      assert [x][1..] == [];
    }
    assert front + back == items;
    assert Children(front + [x] + back, masterId) == Children(items, masterId);
  }

  /** Tables whose rows keep their keys keep the key and foreign-key constraints. */
  lemma SameOrderKeysKeepValid(
    orders: seq<PurchaseOrder>, orders': seq<PurchaseOrder>, items: seq<PurchaseOrderItem>,
    products: seq<Product>, transactions: seq<InventoryTransaction>, nextOrderId: int, nextItemId: int)
    requires ValidTables(orders, items, products, transactions, nextOrderId, nextItemId)
    requires |orders'| == |orders|
    requires forall j :: 0 <= j < |orders| ==> orders'[j].id == orders[j].id
    ensures ValidTables(orders', items, products, transactions, nextOrderId, nextItemId)
  {
    assert ItemsReferToOrders(items, orders);
    forall i | 0 <= i < |items|
      ensures OrderExists(orders', items[i].purchaseOrderId)
    {
      var j :| 0 <= j < |orders| && orders[j].id == items[i].purchaseOrderId;
      assert orders'[j].id == orders[j].id;
    }
    assert ItemsReferToOrders(items, orders');
  }

  /** `RecalculateParentAsync`: reload the master and its live items, reset and
      accumulate `BeforeTaxAmount`, set `TaxAmount` when a tax is attached, set
      `AfterTaxAmount`, and write the row back. */
  method RecalculateParent(db: Database, masterId: Option<int>)
    modifies db
    ensures db.purchaseOrders
         == RecalculateOrders(old(db.purchaseOrders), old(db.purchaseOrderItems), old(db.taxes), masterId)
    ensures db.purchaseOrderItems == old(db.purchaseOrderItems) && db.taxes == old(db.taxes)
    ensures db.products == old(db.products) && db.inventoryTransactions == old(db.inventoryTransactions)
    ensures db.nextPurchaseOrderId == old(db.nextPurchaseOrderId)
    ensures db.nextPurchaseOrderItemId == old(db.nextPurchaseOrderItemId)
    ensures old(db.Valid()) ==> db.Valid()
  {
    var k := MasterIndex(db.purchaseOrders, masterId);
    var childs := Children(db.purchaseOrderItems, masterId);
    if k.Some? {
      var master := db.purchaseOrders[k.value];
      var tax := FindTax(db.taxes, master.taxId);
      master := master.(beforeTaxAmount := Some(0.0));
      for i := 0 to |childs|
        invariant master == db.purchaseOrders[k.value].(beforeTaxAmount := SumTotals(childs[..i]))
      {
        assert childs[..i + 1][..i] == childs[..i];
        master := master.(beforeTaxAmount := Plus(master.beforeTaxAmount, childs[i].total));
      }
      assert childs[..|childs|] == childs;
      if tax.Some? {
        master := master.(taxAmount := Times(Rate(tax.value.percentage), master.beforeTaxAmount));
      }
      master := master.(afterTaxAmount := Plus(master.beforeTaxAmount, master.taxAmount));
      ghost var was := db.purchaseOrders;
      db.purchaseOrders := db.purchaseOrders[k.value := master];
      if old(db.Valid()) {
        SameOrderKeysKeepValid(was, db.purchaseOrders, db.purchaseOrderItems, db.products,
          db.inventoryTransactions, db.nextPurchaseOrderId, db.nextPurchaseOrderItemId);
      }
    }
  }

  /** A worked case: a 10% tax over live items totalling 150 and 50 gives
      200 before tax, 20 tax and 220 after tax; a soft-deleted item and an
      item of another order are not counted. */
  lemma RecalculateTenPercent()
    ensures var master := PurchaseOrder(7, None, None, None, 3, 2, None, None, None, None, None, true);
      var items := [
        PurchaseOrderItem(1, 7, 5, None, None, None, Some(150.0), true),
        PurchaseOrderItem(2, 8, 5, None, None, None, Some(999.0), true),
        PurchaseOrderItem(3, 7, 5, None, None, None, Some(40.0), false),
        PurchaseOrderItem(4, 7, 6, None, None, None, Some(50.0), true)];
      var r := RecalculateOrders([master], items, [Tax(2, "VAT", Some(10.0))], Some(7));
      r[0].beforeTaxAmount == Some(200.0) && r[0].taxAmount == Some(20.0) && r[0].afterTaxAmount == Some(220.0)
  {
    var items := [
      PurchaseOrderItem(1, 7, 5, None, None, None, Some(150.0), true),
      PurchaseOrderItem(2, 8, 5, None, None, None, Some(999.0), true),
      PurchaseOrderItem(3, 7, 5, None, None, None, Some(40.0), false),
      PurchaseOrderItem(4, 7, 6, None, None, None, Some(50.0), true)];
    assert items[1..][1..][1..][1..] == [];
    assert Children(items, Some(7)) == [items[0], items[3]];
    var childs := [items[0], items[3]];
    assert childs[..1] == [items[0]] && childs[..1][..0] == [];
    assert SumTotals(childs[..1]) == Some(150.0);
    assert SumTotals(childs) == Some(200.0);
    var master := PurchaseOrder(7, None, None, None, 3, 2, None, None, None, None, None, true);
    var taxes := [Tax(2, "VAT", Some(10.0))];
    assert MasterIndex([master], Some(7)) == Some(0);
    assert FindTax(taxes, 2) == Some(taxes[0]);
    var r := RecalculateOrders([master], items, taxes, Some(7));
    assert r[0].beforeTaxAmount == Some(200.0);
    assert r[0].taxAmount == Times(Rate(Some(10.0)), Some(200.0));
  }

  // ---------------------------------------------------------------------------
  // Audited update

  datatype Outcome = Pass | Fail(message: string)

  /** The audit stamping of `UpdateAsync`: the updater is recorded only for a
      non-empty current user id, the update time always. */
  function Stamped(entity: PurchaseOrder, userId: Option<string>, now: DateTime): PurchaseOrder
  {
    var byUser := if userId.Some? && |userId.value| > 0 then entity.(updatedByUserId := userId) else entity;
    byUser.(updatedAtUtc := Some(now))
  }

  /** The order table after `Update(entity)` is saved: the row with the entity's key is overwritten. */
  function ReplaceById(orders: seq<PurchaseOrder>, entity: PurchaseOrder): seq<PurchaseOrder>
  {
    seq(|orders|, j requires 0 <= j < |orders| => if orders[j].id == entity.id then entity else orders[j])
  }

  /** `UpdateAsync`: a null entity is an error; otherwise stamp the audit
      columns, save the entity over its row and recalculate the same order. */
  method Update(db: Database, userId: Option<string>, entity: Option<PurchaseOrder>, now: DateTime)
    returns (r: Outcome)
    modifies db
    ensures r.Fail? <==> entity.None?
    ensures entity.None? ==> db.purchaseOrders == old(db.purchaseOrders)
    ensures entity.Some? ==>
      db.purchaseOrders == RecalculateOrders(
        ReplaceById(old(db.purchaseOrders), Stamped(entity.value, userId, now)),
        old(db.purchaseOrderItems), old(db.taxes), Some(entity.value.id))
    ensures db.purchaseOrderItems == old(db.purchaseOrderItems) && db.taxes == old(db.taxes)
    ensures db.products == old(db.products) && db.inventoryTransactions == old(db.inventoryTransactions)
    ensures db.nextPurchaseOrderId == old(db.nextPurchaseOrderId)
    ensures db.nextPurchaseOrderItemId == old(db.nextPurchaseOrderItemId)
    ensures old(db.Valid()) ==> db.Valid()
  {
    if entity.None? {
      return Fail("Unable to process, entity is null");
    }
    var stamped := Stamped(entity.value, userId, now);
    ghost var was := db.purchaseOrders;
    db.purchaseOrders := ReplaceById(db.purchaseOrders, stamped);
    if old(db.Valid()) {
      SameOrderKeysKeepValid(was, db.purchaseOrders, db.purchaseOrderItems, db.products,
        db.inventoryTransactions, db.nextPurchaseOrderId, db.nextPurchaseOrderItemId);
    }
    RecalculateParent(db, Some(stamped.id));
    r := Pass;
  }

  /** After an update of a live order that is in the table, its row carries the
      entity's columns with the audit stamp, and amounts consistent with its items. */
  lemma UpdatedOrderIsConsistent(
    orders: seq<PurchaseOrder>, items: seq<PurchaseOrderItem>, taxes: seq<Tax>,
    userId: Option<string>, entity: PurchaseOrder, now: DateTime, k: nat)
    requires k < |orders| && orders[k].id == entity.id && entity.isNotDeleted
    requires forall j :: 0 <= j < k ==> orders[j].id != entity.id
    ensures var r := RecalculateOrders(ReplaceById(orders, Stamped(entity, userId, now)), items, taxes, Some(entity.id));
      && r[k].updatedAtUtc == Some(now)
      && r[k].updatedByUserId == (if userId.Some? && |userId.value| > 0 then userId else entity.updatedByUserId)
      && r[k].(beforeTaxAmount := entity.beforeTaxAmount, taxAmount := entity.taxAmount,
               afterTaxAmount := entity.afterTaxAmount, updatedByUserId := entity.updatedByUserId,
               updatedAtUtc := entity.updatedAtUtc) == entity
      && r[k].beforeTaxAmount == SumTotals(Children(items, Some(entity.id)))
      && r[k].afterTaxAmount == Plus(r[k].beforeTaxAmount, r[k].taxAmount)
  {
    var replaced := ReplaceById(orders, Stamped(entity, userId, now));
    assert IsMaster(replaced[k], Some(entity.id));
    assert forall j :: 0 <= j < k ==> !IsMaster(replaced[j], Some(entity.id));
    assert MasterIndex(replaced, Some(entity.id)) == Some(k);
  }

  // ---------------------------------------------------------------------------
  // Last order for a product

  /** Position of the item `OrderByDescending(Id).FirstOrDefault()` returns among
      the items of `productId`: the greatest id, the earliest row among equals. */
  function LastItemIndex(items: seq<PurchaseOrderItem>, productId: int): (r: Option<nat>)
    ensures r.None? <==> forall j :: 0 <= j < |items| ==> items[j].productId != productId
    ensures r.Some? ==> r.value < |items| && items[r.value].productId == productId
    ensures r.Some? ==> forall j :: 0 <= j < |items| && items[j].productId == productId ==>
      items[j].id <= items[r.value].id
    ensures r.Some? ==> forall j :: 0 <= j < r.value && items[j].productId == productId ==>
      items[j].id < items[r.value].id
  {
    if |items| == 0 then None
    else
      var rest := LastItemIndex(items[1..], productId);
      if items[0].productId == productId && (rest.None? || items[0].id >= items[1..][rest.value].id) then Some(0)
      else if rest.None? then None
      else Some(rest.value + 1)
  }

  /** `GetLastPurchaseOrderItemForProduct`: the item of the product with the
      greatest id, over all items (soft-deleted ones included). */
  function GetLastPurchaseOrderItemForProduct(items: seq<PurchaseOrderItem>, productId: int)
    : (r: Option<PurchaseOrderItem>)
    ensures r.None? <==> forall j :: 0 <= j < |items| ==> items[j].productId != productId
    ensures r.Some? ==> r.value in items && r.value.productId == productId
    ensures r.Some? ==> forall j :: 0 <= j < |items| && items[j].productId == productId ==>
      items[j].id <= r.value.id
  {
    match LastItemIndex(items, productId)
    case None => None
    case Some(k) => Some(items[k])
  }

  /** `GetLastOrderDetailsForProduct`: the same item, paired with its parent order. */
  function GetLastOrderDetailsForProduct(orders: seq<PurchaseOrder>, items: seq<PurchaseOrderItem>, productId: int)
    : (r: (Option<PurchaseOrder>, Option<PurchaseOrderItem>))
    ensures r.1 == GetLastPurchaseOrderItemForProduct(items, productId)
    ensures r.1.None? ==> r.0.None?
    ensures r.0.Some? ==> r.0.value in orders && r.0.value.id == r.1.value.purchaseOrderId
    ensures r.1.Some? && (exists j :: 0 <= j < |orders| && orders[j].id == r.1.value.purchaseOrderId) ==>
      r.0.Some?
  {
    var lastOrderItem := GetLastPurchaseOrderItemForProduct(items, productId);
    match lastOrderItem
    case None => (None, None)
    case Some(item) => (FindOrderById(orders, item.purchaseOrderId), lastOrderItem)
  }

  /** Items of other products appended to the table do not change which item is last. */
  lemma {:induction false} LastItemIndexAppend(items: seq<PurchaseOrderItem>, more: seq<PurchaseOrderItem>, productId: int)
    requires forall j :: 0 <= j < |more| ==> more[j].productId != productId
    ensures LastItemIndex(items + more, productId) == LastItemIndex(items, productId)
  {
    if |items| == 0 {
      assert items + more == more;
    } else {
      assert (items + more)[1..] == items[1..] + more;
      LastItemIndexAppend(items[1..], more, productId);
    }
  }

  /** Orders, and items of other products, added after the fact do not change
      the last order details of a product, as long as every item's order exists. */
  lemma LastOrderDetailsAfterInserts(
    orders: seq<PurchaseOrder>, moreOrders: seq<PurchaseOrder>,
    items: seq<PurchaseOrderItem>, moreItems: seq<PurchaseOrderItem>, productId: int)
    requires ItemsReferToOrders(items, orders)
    requires forall j :: 0 <= j < |moreItems| ==> moreItems[j].productId != productId
    ensures GetLastOrderDetailsForProduct(orders + moreOrders, items + moreItems, productId)
         == GetLastOrderDetailsForProduct(orders, items, productId)
  {
    LastItemIndexAppend(items, moreItems, productId);
    var k := LastItemIndex(items, productId);
    if k.Some? {
      var item := items[k.value];
      assert OrderExists(orders, item.purchaseOrderId);
      FindOrderByIdAppend(orders, moreOrders, item.purchaseOrderId);
      assert (items + moreItems)[k.value] == item;
    }
  }
}
