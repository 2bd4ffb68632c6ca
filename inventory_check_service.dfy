/** The automatic-replenishment tick: select the physical products whose
    qualifying inventory rows sum to at most their threshold, and for each of
    them add a Draft purchase order with one item, seeded from that product's
    last order. */
module InventoryCheckService {
  import opened Entities
  import opened Data
  import opened PurchaseOrderService

  // ---------------------------------------------------------------------------
  // Low-stock selection

  /** An element of the low-stock list: the group key and the summed stock. */
  datatype LowStockItem = LowStockItem(productId: int, threshold: int, stock: real)

  /** The per-row filter: the row's product is physical and the row's own
      `Stock` is at or below that product's `Threshold`. */
  predicate Qualifies(t: InventoryTransaction, products: seq<Product>)
  {
    var p := FindProduct(products, t.productId);
    p.Some? && p.value.physical && t.stock <= p.value.threshold as real
  }

  /** The group key of a qualifying row: its product and that product's threshold. */
  function KeyOf(t: InventoryTransaction, products: seq<Product>): (int, int)
    requires Qualifies(t, products)
  {
    (t.productId, FindProduct(products, t.productId).value.threshold)
  }

  /** Some qualifying row has the given key. */
  ghost predicate HasQualifyingRow(txs: seq<InventoryTransaction>, products: seq<Product>, key: (int, int))
  {
    exists i :: 0 <= i < |txs| && Qualifies(txs[i], products) && KeyOf(txs[i], products) == key
  }

  /** Reference definition of a group's stock: the sum of `Stock` over the
      qualifying rows with that key, and over no other row. */
  function QualifyingStock(txs: seq<InventoryTransaction>, products: seq<Product>, key: (int, int)): real
  {
    if |txs| == 0 then 0.0
    else
      (if Qualifies(txs[0], products) && KeyOf(txs[0], products) == key then txs[0].stock else 0.0)
      + QualifyingStock(txs[1..], products, key)
  }

  /** The `Where` and the projection onto (ProductId, Threshold, Stock), in table order. */
  function Rows(txs: seq<InventoryTransaction>, products: seq<Product>): seq<LowStockItem>
  {
    if |txs| == 0 then []
    else
      (if Qualifies(txs[0], products)
       then [LowStockItem(txs[0].productId, KeyOf(txs[0], products).1, txs[0].stock)]
       else [])
      + Rows(txs[1..], products)
  }

  function Key(e: LowStockItem): (int, int)
  {
    (e.productId, e.threshold)
  }

  /** The `GroupBy` keys, in order of first appearance, each once. */
  function GroupKeys(rows: seq<LowStockItem>): (r: seq<(int, int)>)
    ensures forall i, j :: 0 <= i < j < |r| ==> r[i] != r[j]
    ensures forall k :: k in r <==> exists i :: 0 <= i < |rows| && Key(rows[i]) == k
  {
    if |rows| == 0 then []
    else
      var init := rows[..|rows| - 1];
      var keys := GroupKeys(init);
      var k := Key(rows[|rows| - 1]);
      assert forall i :: 0 <= i < |init| ==> init[i] == rows[i];
      if k in keys then keys else keys + [k]
  }

  /** `group.Sum(x => x.Stock)`. */
  function GroupSum(rows: seq<LowStockItem>, key: (int, int)): real
  {
    if |rows| == 0 then 0.0
    else (if Key(rows[0]) == key then rows[0].stock else 0.0) + GroupSum(rows[1..], key)
  }

  /** The `Select` building one entry per group. */
  function Groups(keys: seq<(int, int)>, rows: seq<LowStockItem>): seq<LowStockItem>
  {
    seq(|keys|, i requires 0 <= i < |keys| => LowStockItem(keys[i].0, keys[i].1, GroupSum(rows, keys[i])))
  }

  /** No two entries are about the same product. */
  predicate DistinctProducts(s: seq<LowStockItem>)
  {
    forall i, j :: 0 <= i < j < |s| ==> s[i].productId != s[j].productId
  }

  /** The final `Where` on the summed stock, order kept. */
  function AtOrBelowThreshold(groups: seq<LowStockItem>): (r: seq<LowStockItem>)
    ensures forall e :: e in r <==> e in groups && e.stock <= e.threshold as real
    ensures DistinctProducts(groups) ==> DistinctProducts(r)
  {
    if |groups| == 0 then []
    else
      var rest := AtOrBelowThreshold(groups[1..]);
      if groups[0].stock <= groups[0].threshold as real then
        assert DistinctProducts(groups) ==> forall e :: e in rest ==> e.productId != groups[0].productId;
        [groups[0]] + rest
      else rest
  }

  /** Summing the projected rows of a group is summing the qualifying rows of that key. */
  lemma {:induction false} GroupSumRows(txs: seq<InventoryTransaction>, products: seq<Product>, key: (int, int))
    ensures GroupSum(Rows(txs, products), key) == QualifyingStock(txs, products, key)
  {
    if |txs| > 0 {
      GroupSumRows(txs[1..], products, key);
      var rest := Rows(txs[1..], products);
      if Qualifies(txs[0], products) {
        var row := LowStockItem(txs[0].productId, KeyOf(txs[0], products).1, txs[0].stock);
        assert ([row] + rest)[0] == row;
        assert ([row] + rest)[1..] == rest;
      } else {
        assert [] + rest == rest;
      }
    }
  }

  /** Every projected row comes from a qualifying row with the same key. */
  lemma {:induction false} RowsKeySound(txs: seq<InventoryTransaction>, products: seq<Product>, i: nat)
    requires i < |Rows(txs, products)|
    ensures HasQualifyingRow(txs, products, Key(Rows(txs, products)[i]))
  {
    var rest := Rows(txs[1..], products);
    var k := Key(Rows(txs, products)[i]);
    if Qualifies(txs[0], products) && i == 0 {
      assert Qualifies(txs[0], products) && KeyOf(txs[0], products) == k;
    } else {
      var i' := if Qualifies(txs[0], products) then i - 1 else i;
      assert Rows(txs, products)[i] == rest[i'];
      RowsKeySound(txs[1..], products, i');
      var t :| 0 <= t < |txs[1..]| && Qualifies(txs[1..][t], products) && KeyOf(txs[1..][t], products) == k;
      assert txs[t + 1] == txs[1..][t];
    }
  }

  /** Every qualifying row is projected onto a row with its key. */
  lemma {:induction false} RowsKeyComplete(txs: seq<InventoryTransaction>, products: seq<Product>, t: nat)
    requires t < |txs| && Qualifies(txs[t], products)
    ensures exists i :: 0 <= i < |Rows(txs, products)| && Key(Rows(txs, products)[i]) == KeyOf(txs[t], products)
  {
    var rows, rest := Rows(txs, products), Rows(txs[1..], products);
    var k := KeyOf(txs[t], products);
    if t == 0 {
      assert Key(rows[0]) == k;
    } else {
      assert txs[1..][t - 1] == txs[t];
      RowsKeyComplete(txs[1..], products, t - 1);
      var i :| 0 <= i < |rest| && Key(rest[i]) == k;
      var i' := if Qualifies(txs[0], products) then i + 1 else i;
      assert rows[i'] == rest[i];
    }
  }

  /** A group key names its product and that product's threshold. */
  lemma GroupKeyProduct(txs: seq<InventoryTransaction>, products: seq<Product>, key: (int, int))
    requires key in GroupKeys(Rows(txs, products))
    ensures HasQualifyingRow(txs, products, key)
    ensures var p := FindProduct(products, key.0);
      p.Some? && p.value.physical && p.value.threshold == key.1
  {
    var rows := Rows(txs, products);
    var i :| 0 <= i < |rows| && Key(rows[i]) == key;
    RowsKeySound(txs, products, i);
  }

  /** The groups built from distinct keys are about distinct products. */
  lemma GroupsDistinct(txs: seq<InventoryTransaction>, products: seq<Product>)
    ensures var rows := Rows(txs, products);
      DistinctProducts(Groups(GroupKeys(rows), rows))
  {
    var rows := Rows(txs, products);
    var keys := GroupKeys(rows);
    var groups := Groups(keys, rows);
    forall i, j | 0 <= i < j < |groups|
      ensures groups[i].productId != groups[j].productId
    {
      GroupKeyProduct(txs, products, keys[i]);
      GroupKeyProduct(txs, products, keys[j]);
    }
  }

  /** What each group of the list holds, in terms of the transaction table. */
  lemma GroupMeaning(txs: seq<InventoryTransaction>, products: seq<Product>, e: LowStockItem)
    requires var rows := Rows(txs, products);
      e in Groups(GroupKeys(rows), rows)
    ensures HasQualifyingRow(txs, products, Key(e))
    ensures var p := FindProduct(products, e.productId);
      p.Some? && p.value.physical && p.value.threshold == e.threshold
    ensures e.stock == QualifyingStock(txs, products, Key(e))
  {
    var rows := Rows(txs, products);
    var keys := GroupKeys(rows);
    var i :| 0 <= i < |keys| && Groups(keys, rows)[i] == e;
    assert Key(e) == keys[i];
    GroupKeyProduct(txs, products, Key(e));
    GroupSumRows(txs, products, Key(e));
  }

  /** The `lowStockItems` query at the start of `CheckInventoryAndCreatePurchaseOrders`. */
  function LowStockItems(txs: seq<InventoryTransaction>, products: seq<Product>): (r: seq<LowStockItem>)
    ensures forall e :: e in r ==>
      var p := FindProduct(products, e.productId);
      p.Some? && p.value.physical && p.value.threshold == e.threshold
    ensures forall e :: e in r ==>
      && HasQualifyingRow(txs, products, Key(e))
      && e.stock == QualifyingStock(txs, products, Key(e))
      && e.stock <= e.threshold as real
    ensures DistinctProducts(r)
  {
    var rows := Rows(txs, products);
    var groups := Groups(GroupKeys(rows), rows);
    GroupsDistinct(txs, products);
    var r := AtOrBelowThreshold(groups);
    assert forall e :: e in r ==>
      && HasQualifyingRow(txs, products, Key(e))
      && (var p := FindProduct(products, e.productId); p.Some? && p.value.physical && p.value.threshold == e.threshold)
      && e.stock == QualifyingStock(txs, products, Key(e))
    by {
      forall e | e in r
        ensures HasQualifyingRow(txs, products, Key(e))
        ensures var p := FindProduct(products, e.productId);
          p.Some? && p.value.physical && p.value.threshold == e.threshold
        ensures e.stock == QualifyingStock(txs, products, Key(e))
      {
        GroupMeaning(txs, products, e);
      }
    }
    r
  }

  /** Worked cases for a physical product with threshold 10: a stock of 10
      is listed, a stock of 11 is not, and two rows of 6 and 5 (each at or
      below the threshold on its own) sum to 11 and are not listed. */
  lemma ThresholdIsInclusive()
    ensures var products := [Product(1, "Bolt", 5.0, true, 10)];
      && LowStockItems([InventoryTransaction(1, 1, 1, 0.0, 10.0)], products) == [LowStockItem(1, 10, 10.0)]
      && LowStockItems([InventoryTransaction(1, 1, 1, 0.0, 11.0)], products) == []
      && LowStockItems([InventoryTransaction(1, 1, 1, 0.0, 6.0), InventoryTransaction(2, 2, 1, 0.0, 5.0)], products) == []
  {
    var products := [Product(1, "Bolt", 5.0, true, 10)];
    var ten := [InventoryTransaction(1, 1, 1, 0.0, 10.0)];
    var rows := Rows(ten, products);
    assert rows == [LowStockItem(1, 10, 10.0)];
    assert GroupKeys(rows) == [(1, 10)];
    assert rows[1..] == [];
    assert GroupSum(rows, (1, 10)) == 10.0;
    assert Groups(GroupKeys(rows), rows) == [LowStockItem(1, 10, 10.0)];

    var eleven := [InventoryTransaction(1, 1, 1, 0.0, 11.0)];
    assert Rows(eleven, products) == [];

    var split := [InventoryTransaction(1, 1, 1, 0.0, 6.0), InventoryTransaction(2, 2, 1, 0.0, 5.0)];
    var rows' := Rows(split, products);
    assert split[1..][1..] == [];
    assert rows' == [LowStockItem(1, 10, 6.0), LowStockItem(1, 10, 5.0)];
    assert rows'[..1] == [LowStockItem(1, 10, 6.0)];
    assert GroupKeys(rows') == [(1, 10)];
    assert rows'[1..][1..] == [];
    assert GroupSum(rows'[1..], (1, 10)) == 5.0;
    assert GroupSum(rows', (1, 10)) == 11.0;
    assert Groups(GroupKeys(rows'), rows') == [LowStockItem(1, 10, 11.0)];
  }

  /** A key is listed exactly when some qualifying row has it and its
      qualifying rows sum to at most its threshold. */
  lemma LowStockListedIff(txs: seq<InventoryTransaction>, products: seq<Product>, key: (int, int))
    ensures (exists e :: e in LowStockItems(txs, products) && Key(e) == key)
        <==> HasQualifyingRow(txs, products, key) && QualifyingStock(txs, products, key) <= key.1 as real
  {
    var rows := Rows(txs, products);
    var keys := GroupKeys(rows);
    var groups := Groups(keys, rows);
    if HasQualifyingRow(txs, products, key) && QualifyingStock(txs, products, key) <= key.1 as real {
      var t :| 0 <= t < |txs| && Qualifies(txs[t], products) && KeyOf(txs[t], products) == key;
      RowsKeyComplete(txs, products, t);
      assert key in keys;
      GroupSumRows(txs, products, key);
      var i :| 0 <= i < |keys| && keys[i] == key;
      assert groups[i] in groups;
      assert Key(groups[i]) == key;
    }
  }

  // ---------------------------------------------------------------------------
  // Order origination

  /** The `PurchaseOrder` initializer of the reorder loop, before `AddAsync` gives it an id: Draft,
      dated `date`, numbered "PO-" and a fresh token, vendor and tax taken from
      the last order or defaulted to 1, amounts not yet computed. */
  function DraftOrder(lastOrder: Option<PurchaseOrder>, token: string, date: DateTime): PurchaseOrder
  {
    PurchaseOrder(
      id := 0,
      number := Some("PO-" + token),
      orderDate := Some(date),
      orderStatus := Some(Draft),
      vendorId := if lastOrder.Some? then lastOrder.value.vendorId else 1,
      taxId := if lastOrder.Some? then lastOrder.value.taxId else 1,
      beforeTaxAmount := None,
      taxAmount := None,
      afterTaxAmount := None,
      updatedByUserId := None,
      updatedAtUtc := None,
      isNotDeleted := true)
  }

  /** The `PurchaseOrderItem` initializer of the reorder loop, before `RecalculateTotal` and `AddAsync`:
      price from the last item when it has one, else the product's price;
      quantity from the last item when it has one, else 20. */
  function ReorderItem(purchaseOrderId: int, product: Product, lastItem: Option<PurchaseOrderItem>)
    : PurchaseOrderItem
  {
    PurchaseOrderItem(
      id := 0,
      purchaseOrderId := purchaseOrderId,
      productId := product.id,
      summary := Some(product.name),
      unitPrice := Some(if lastItem.Some? && lastItem.value.unitPrice.Some?
                        then lastItem.value.unitPrice.value else product.unitPrice),
      quantity := Some(if lastItem.Some? && lastItem.value.quantity.Some?
                       then lastItem.value.quantity.value else 20.0),
      total := None,
      isNotDeleted := true)
  }

  /** The order row created for a product, given the tables it is looked up in. */
  function OrderFor(
    orders: seq<PurchaseOrder>, items: seq<PurchaseOrderItem>, productId: int,
    id: int, token: string, date: DateTime): PurchaseOrder
  {
    DraftOrder(GetLastOrderDetailsForProduct(orders, items, productId).0, token, date).(id := id)
  }

  /** The item row created for a product, given the tables it is looked up in. */
  function ItemFor(
    orders: seq<PurchaseOrder>, items: seq<PurchaseOrderItem>, product: Product,
    orderId: int, itemId: int, recalculateTotal: PurchaseOrderItem -> Option<real>): PurchaseOrderItem
  {
    var draft := ReorderItem(orderId, product, GetLastOrderDetailsForProduct(orders, items, product.id).1);
    draft.(total := recalculateTotal(draft)).(id := itemId)
  }

  /** The body of the `foreach` in `CheckInventoryAndCreatePurchaseOrders`: load the product, look up its
      last order, add a Draft order, then add one item pointing at the id just
      assigned to that order. */
  method ReorderProduct(
    db: Database, productId: int, token: string, date: DateTime,
    recalculateTotal: PurchaseOrderItem -> Option<real>)
    requires db.Valid()
    requires ProductExists(db.products, productId)
    modifies db
    ensures db.Valid()
    ensures db.products == old(db.products) && db.taxes == old(db.taxes)
    ensures db.inventoryTransactions == old(db.inventoryTransactions)
    ensures db.nextPurchaseOrderId == old(db.nextPurchaseOrderId) + 1
    ensures db.nextPurchaseOrderItemId == old(db.nextPurchaseOrderItemId) + 1
    ensures db.purchaseOrders == old(db.purchaseOrders)
      + [OrderFor(old(db.purchaseOrders), old(db.purchaseOrderItems), productId,
                  old(db.nextPurchaseOrderId), token, date)]
    ensures db.purchaseOrderItems == old(db.purchaseOrderItems)
      + [ItemFor(old(db.purchaseOrders), old(db.purchaseOrderItems), FindProduct(db.products, productId).value,
                 old(db.nextPurchaseOrderId), old(db.nextPurchaseOrderItemId), recalculateTotal)]
  {
    var product := FindProduct(db.products, productId).value;
    var details := GetLastOrderDetailsForProduct(db.purchaseOrders, db.purchaseOrderItems, product.id);
    var lastOrder, lastOrderItem := details.0, details.1;

    var purchaseOrder := DraftOrder(lastOrder, token, date);
    var orderId := db.AddPurchaseOrder(purchaseOrder);

    var purchaseOrderItem := ReorderItem(orderId, product, lastOrderItem);
    purchaseOrderItem := purchaseOrderItem.(total := recalculateTotal(purchaseOrderItem));
    assert db.purchaseOrders[|db.purchaseOrders| - 1].id == orderId;
    assert product in db.products;
    var _ := db.AddPurchaseOrderItem(purchaseOrderItem);
  }

  /** The orders a tick creates for the first `k` entries of the low-stock
      list, each looked up in the tables as they were before the tick. */
  function CreatedOrders(
    orders: seq<PurchaseOrder>, items: seq<PurchaseOrderItem>, low: seq<LowStockItem>,
    nextOrderId: int, tokens: nat -> string, clock: nat -> DateTime, k: nat): (r: seq<PurchaseOrder>)
    requires k <= |low|
    ensures |r| == k
  {
    if k == 0 then []
    else
      CreatedOrders(orders, items, low, nextOrderId, tokens, clock, k - 1)
      + [OrderFor(orders, items, low[k - 1].productId, nextOrderId + k - 1, tokens(k - 1), clock(k - 1))]
  }

  /** Every entry's product is in the product table. */
  ghost predicate ProductsFound(products: seq<Product>, low: seq<LowStockItem>)
  {
    forall j :: 0 <= j < |low| ==> FindProduct(products, low[j].productId).Some?
  }

  /** The items a tick creates for the first `k` entries of the low-stock
      list, each pointing at the order created for the same entry. */
  function CreatedItems(
    orders: seq<PurchaseOrder>, items: seq<PurchaseOrderItem>, products: seq<Product>,
    low: seq<LowStockItem>, nextOrderId: int, nextItemId: int,
    recalculateTotal: PurchaseOrderItem -> Option<real>, k: nat): (r: seq<PurchaseOrderItem>)
    requires k <= |low| && ProductsFound(products, low)
    ensures |r| == k
  {
    if k == 0 then []
    else
      CreatedItems(orders, items, products, low, nextOrderId, nextItemId, recalculateTotal, k - 1)
      + [ItemFor(orders, items, FindProduct(products, low[k - 1].productId).value,
               nextOrderId + k - 1, nextItemId + k - 1, recalculateTotal)]
  }

  /** The j-th created order is the Draft order of the j-th entry, numbered
      `nextOrderId + j`. */
  lemma {:induction false} CreatedOrderAt(
    orders: seq<PurchaseOrder>, items: seq<PurchaseOrderItem>, low: seq<LowStockItem>,
    nextOrderId: int, tokens: nat -> string, clock: nat -> DateTime, k: nat, j: nat)
    requires j < k <= |low|
    ensures CreatedOrders(orders, items, low, nextOrderId, tokens, clock, k)[j]
         == OrderFor(orders, items, low[j].productId, nextOrderId + j, tokens(j), clock(j))
  {
    if j < k - 1 {
      CreatedOrderAt(orders, items, low, nextOrderId, tokens, clock, k - 1, j);
    }
  }

  /** The j-th created item is the reorder item of the j-th entry's product,
      numbered `nextItemId + j` and pointing at order `nextOrderId + j`. */
  lemma {:induction false} CreatedItemAt(
    orders: seq<PurchaseOrder>, items: seq<PurchaseOrderItem>, products: seq<Product>,
    low: seq<LowStockItem>, nextOrderId: int, nextItemId: int,
    recalculateTotal: PurchaseOrderItem -> Option<real>, k: nat, j: nat)
    requires j < k <= |low| && ProductsFound(products, low)
    ensures var item := CreatedItems(orders, items, products, low, nextOrderId, nextItemId, recalculateTotal, k)[j];
      && item == ItemFor(orders, items, FindProduct(products, low[j].productId).value,
                         nextOrderId + j, nextItemId + j, recalculateTotal)
      && item.productId == low[j].productId
      && item.purchaseOrderId == nextOrderId + j
      && item.id == nextItemId + j
  {
    if j < k - 1 {
      CreatedItemAt(orders, items, products, low, nextOrderId, nextItemId, recalculateTotal, k - 1, j);
    }
  }

  /** The j-th created order: numbered `nextOrderId + j`, in Draft status,
      with the j-th number token and date, and the vendor and tax of the
      product's last order, or 1 when the product has no last order. */
  lemma CreatedOrderFields(
    orders: seq<PurchaseOrder>, items: seq<PurchaseOrderItem>, low: seq<LowStockItem>,
    nextOrderId: int, tokens: nat -> string, clock: nat -> DateTime, k: nat, j: nat)
    requires j < k <= |low|
    ensures var o := CreatedOrders(orders, items, low, nextOrderId, tokens, clock, k)[j];
      var last := GetLastOrderDetailsForProduct(orders, items, low[j].productId).0;
      && o.id == nextOrderId + j
      && o.orderStatus == Some(Draft)
      && o.number == Some("PO-" + tokens(j)) && o.orderDate == Some(clock(j))
      && o.vendorId == (if last.Some? then last.value.vendorId else 1)
      && o.taxId == (if last.Some? then last.value.taxId else 1)
      && o.beforeTaxAmount.None? && o.taxAmount.None? && o.afterTaxAmount.None?
      && o.isNotDeleted
  {
    CreatedOrderAt(orders, items, low, nextOrderId, tokens, clock, k, j);
  }

  /** The j-th created item: it points at the j-th created order, names the
      j-th entry's product, and takes the unit price and quantity of the
      product's last item when those are non-null, else the product's price
      and 20. */
  lemma CreatedItemFields(
    orders: seq<PurchaseOrder>, items: seq<PurchaseOrderItem>, products: seq<Product>,
    low: seq<LowStockItem>, nextOrderId: int, nextItemId: int,
    tokens: nat -> string, clock: nat -> DateTime,
    recalculateTotal: PurchaseOrderItem -> Option<real>, k: nat, j: nat)
    requires j < k <= |low| && ProductsFound(products, low)
    ensures var item := CreatedItems(orders, items, products, low, nextOrderId, nextItemId, recalculateTotal, k)[j];
      var product := FindProduct(products, low[j].productId).value;
      var last := GetLastPurchaseOrderItemForProduct(items, low[j].productId);
      && item.id == nextItemId + j
      && item.purchaseOrderId == CreatedOrders(orders, items, low, nextOrderId, tokens, clock, k)[j].id
      && item.productId == product.id == low[j].productId
      && item.summary == Some(product.name)
      && item.unitPrice
         == Some(if last.Some? && last.value.unitPrice.Some? then last.value.unitPrice.value else product.unitPrice)
      && item.quantity
         == Some(if last.Some? && last.value.quantity.Some? then last.value.quantity.value else 20.0)
      && item.isNotDeleted
  {
    CreatedItemAt(orders, items, products, low, nextOrderId, nextItemId, recalculateTotal, k, j);
    CreatedOrderAt(orders, items, low, nextOrderId, tokens, clock, k, j);
  }

  /** One iteration of the tick: the rows `ReorderProduct` appends to the
      tables as the earlier iterations left them are the next created rows,
      because those iterations only added items of other products. */
  lemma TickStep(
    orders: seq<PurchaseOrder>, items: seq<PurchaseOrderItem>, products: seq<Product>,
    low: seq<LowStockItem>, nextOrderId: int, nextItemId: int,
    tokens: nat -> string, clock: nat -> DateTime,
    recalculateTotal: PurchaseOrderItem -> Option<real>, i: nat,
    ordersNow: seq<PurchaseOrder>, itemsNow: seq<PurchaseOrderItem>)
    requires i < |low| && ProductsFound(products, low) && DistinctProducts(low)
    requires ItemsReferToOrders(items, orders)
    requires ordersNow == orders + CreatedOrders(orders, items, low, nextOrderId, tokens, clock, i)
    requires itemsNow
      == items + CreatedItems(orders, items, products, low, nextOrderId, nextItemId, recalculateTotal, i)
    ensures ordersNow + [OrderFor(ordersNow, itemsNow, low[i].productId, nextOrderId + i, tokens(i), clock(i))]
         == orders + CreatedOrders(orders, items, low, nextOrderId, tokens, clock, i + 1)
    ensures itemsNow + [ItemFor(ordersNow, itemsNow, FindProduct(products, low[i].productId).value,
                                nextOrderId + i, nextItemId + i, recalculateTotal)]
         == items + CreatedItems(orders, items, products, low, nextOrderId, nextItemId, recalculateTotal, i + 1)
  {
    var moreOrders := CreatedOrders(orders, items, low, nextOrderId, tokens, clock, i);
    var moreItems := CreatedItems(orders, items, products, low, nextOrderId, nextItemId, recalculateTotal, i);
    var productId := low[i].productId;
    forall j | 0 <= j < |moreItems|
      ensures moreItems[j].productId != productId
    {
      CreatedItemAt(orders, items, products, low, nextOrderId, nextItemId, recalculateTotal, i, j);
    }
    LastOrderDetailsAfterInserts(orders, moreOrders, items, moreItems, productId);
    assert FindProduct(products, productId).value.id == productId;
  }

  /** Iteration `i` of the `foreach`, stated against the tables as they were
      before the first iteration. */
  method ReorderNext(
    db: Database, lowStockItems: seq<LowStockItem>, i: nat, tokens: nat -> string, clock: nat -> DateTime,
    recalculateTotal: PurchaseOrderItem -> Option<real>,
    ghost orders0: seq<PurchaseOrder>, ghost items0: seq<PurchaseOrderItem>,
    ghost nextOrder0: int, ghost nextItem0: int)
    requires db.Valid() && i < |lowStockItems|
    requires ProductsFound(db.products, lowStockItems) && DistinctProducts(lowStockItems)
    requires ItemsReferToOrders(items0, orders0)
    requires db.nextPurchaseOrderId == nextOrder0 + i && db.nextPurchaseOrderItemId == nextItem0 + i
    requires db.purchaseOrders
      == orders0 + CreatedOrders(orders0, items0, lowStockItems, nextOrder0, tokens, clock, i)
    requires db.purchaseOrderItems
      == items0 + CreatedItems(orders0, items0, db.products, lowStockItems, nextOrder0, nextItem0, recalculateTotal, i)
    modifies db
    ensures db.Valid()
    ensures db.products == old(db.products) && db.taxes == old(db.taxes)
    ensures db.inventoryTransactions == old(db.inventoryTransactions)
    ensures db.nextPurchaseOrderId == nextOrder0 + i + 1 && db.nextPurchaseOrderItemId == nextItem0 + i + 1
    ensures db.purchaseOrders
      == orders0 + CreatedOrders(orders0, items0, lowStockItems, nextOrder0, tokens, clock, i + 1)
    ensures db.purchaseOrderItems
      == items0 + CreatedItems(orders0, items0, db.products, lowStockItems, nextOrder0, nextItem0, recalculateTotal, i + 1)
  {
    TickStep(orders0, items0, db.products, lowStockItems, nextOrder0, nextItem0,
             tokens, clock, recalculateTotal, i, db.purchaseOrders, db.purchaseOrderItems);
    ReorderProduct(db, lowStockItems[i].productId, tokens(i), clock(i), recalculateTotal);
  }

  /** The `foreach` of `CheckInventoryAndCreatePurchaseOrders` over a low-stock list whose products are
      distinct and present: one order and one item per entry, in list order,
      and nothing for an empty list; every lookup gives what it gave before
      the first iteration. */
  method ReorderAll(
    db: Database, lowStockItems: seq<LowStockItem>, tokens: nat -> string, clock: nat -> DateTime,
    recalculateTotal: PurchaseOrderItem -> Option<real>)
    requires db.Valid()
    requires ProductsFound(db.products, lowStockItems) && DistinctProducts(lowStockItems)
    modifies db
    ensures db.Valid()
    ensures db.products == old(db.products) && db.taxes == old(db.taxes)
    ensures db.inventoryTransactions == old(db.inventoryTransactions)
    ensures db.nextPurchaseOrderId == old(db.nextPurchaseOrderId) + |lowStockItems|
    ensures db.nextPurchaseOrderItemId == old(db.nextPurchaseOrderItemId) + |lowStockItems|
    ensures db.purchaseOrders == old(db.purchaseOrders)
      + CreatedOrders(old(db.purchaseOrders), old(db.purchaseOrderItems), lowStockItems,
                      old(db.nextPurchaseOrderId), tokens, clock, |lowStockItems|)
    ensures db.purchaseOrderItems == old(db.purchaseOrderItems)
      + CreatedItems(old(db.purchaseOrders), old(db.purchaseOrderItems), db.products, lowStockItems,
                     old(db.nextPurchaseOrderId), old(db.nextPurchaseOrderItemId), recalculateTotal,
                     |lowStockItems|)
  {
    ghost var orders0, items0 := db.purchaseOrders, db.purchaseOrderItems;
    ghost var nextOrder0, nextItem0 := db.nextPurchaseOrderId, db.nextPurchaseOrderItemId;
    assert ItemsReferToOrders(items0, orders0);
    for i := 0 to |lowStockItems|
      invariant db.Valid()
      invariant db.products == old(db.products) && db.taxes == old(db.taxes)
      invariant db.inventoryTransactions == old(db.inventoryTransactions)
      invariant db.nextPurchaseOrderId == nextOrder0 + i && db.nextPurchaseOrderItemId == nextItem0 + i
      invariant db.purchaseOrders
        == orders0 + CreatedOrders(orders0, items0, lowStockItems, nextOrder0, tokens, clock, i)
      invariant db.purchaseOrderItems
        == items0 + CreatedItems(orders0, items0, db.products, lowStockItems,
                                 nextOrder0, nextItem0, recalculateTotal, i)
    {
      ReorderNext(db, lowStockItems, i, tokens, clock, recalculateTotal, orders0, items0, nextOrder0, nextItem0);
    }
  }

  /** Every product of the low-stock list is in the product table. */
  lemma LowStockProductsFound(txs: seq<InventoryTransaction>, products: seq<Product>)
    ensures ProductsFound(products, LowStockItems(txs, products))
  {
    var low := LowStockItems(txs, products);
    forall j | 0 <= j < |low|
      ensures FindProduct(products, low[j].productId).Some?
    {
      assert low[j] in low;
    }
  }

  /** One tick of the timer (`CheckInventoryAndCreatePurchaseOrders`): the
      low-stock query, then one order and one item per entry of its result.
      `tokens(i)` and `clock(i)` stand for the GUID prefix and `DateTime.Now`
      of the i-th iteration, `recalculateTotal` for the item's `RecalculateTotal`. */
  method CheckInventoryAndCreatePurchaseOrders(
    db: Database, tokens: nat -> string, clock: nat -> DateTime,
    recalculateTotal: PurchaseOrderItem -> Option<real>)
    requires db.Valid()
    modifies db
    ensures db.Valid()
    ensures db.products == old(db.products) && db.taxes == old(db.taxes)
    ensures db.inventoryTransactions == old(db.inventoryTransactions)
    ensures var low := LowStockItems(db.inventoryTransactions, db.products);
      && ProductsFound(db.products, low)
      && (|low| == 0 ==>
            db.purchaseOrders == old(db.purchaseOrders) && db.purchaseOrderItems == old(db.purchaseOrderItems))
      && db.nextPurchaseOrderId == old(db.nextPurchaseOrderId) + |low|
      && db.nextPurchaseOrderItemId == old(db.nextPurchaseOrderItemId) + |low|
      && db.purchaseOrders == old(db.purchaseOrders)
         + CreatedOrders(old(db.purchaseOrders), old(db.purchaseOrderItems), low,
                         old(db.nextPurchaseOrderId), tokens, clock, |low|)
      && db.purchaseOrderItems == old(db.purchaseOrderItems)
         + CreatedItems(old(db.purchaseOrders), old(db.purchaseOrderItems), db.products, low,
                        old(db.nextPurchaseOrderId), old(db.nextPurchaseOrderItemId), recalculateTotal, |low|)
  {
    var lowStockItems := LowStockItems(db.inventoryTransactions, db.products);
    LowStockProductsFound(db.inventoryTransactions, db.products);
    ReorderAll(db, lowStockItems, tokens, clock, recalculateTotal);
  }
}
