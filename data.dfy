/** The application database as the core sees it: the five tables it touches,
    the identity counters of the two tables it inserts into, and the key
    lookups used by navigation properties and `GetByIdAsync`. */
module Data {
  import opened Entities

  /** The purchase order with the given key, first in table order. */
  function FindOrderById(orders: seq<PurchaseOrder>, id: int): (r: Option<PurchaseOrder>)
    ensures r.Some? ==> r.value in orders && r.value.id == id
    ensures r.None? <==> forall j :: 0 <= j < |orders| ==> orders[j].id != id
  {
    if |orders| == 0 then None
    else if orders[0].id == id then Some(orders[0])
    else FindOrderById(orders[1..], id)
  }

  /** The product with the given key, first in table order. */
  function FindProduct(products: seq<Product>, id: int): (r: Option<Product>)
    ensures r.Some? ==> r.value in products && r.value.id == id
    ensures r.None? <==> forall j :: 0 <= j < |products| ==> products[j].id != id
  {
    if |products| == 0 then None
    else if products[0].id == id then Some(products[0])
    else FindProduct(products[1..], id)
  }

  /** The tax with the given key, first in table order. */
  function FindTax(taxes: seq<Tax>, id: int): (r: Option<Tax>)
    ensures r.Some? ==> r.value in taxes && r.value.id == id
    ensures r.None? <==> forall j :: 0 <= j < |taxes| ==> taxes[j].id != id
  {
    if |taxes| == 0 then None
    else if taxes[0].id == id then Some(taxes[0])
    else FindTax(taxes[1..], id)
  }

  /** Rows appended after an order that is already found do not change the lookup. */
  lemma {:induction false} FindOrderByIdAppend(orders: seq<PurchaseOrder>, more: seq<PurchaseOrder>, id: int)
    requires FindOrderById(orders, id).Some?
    ensures FindOrderById(orders + more, id) == FindOrderById(orders, id)
  {
    if orders[0].id != id {
      assert (orders + more)[1..] == orders[1..] + more;
      FindOrderByIdAppend(orders[1..], more, id);
    }
  }

  /** Identity keys of a table seeded at 1: positive, below the next identity value, distinct. */
  ghost predicate OrderKeys(orders: seq<PurchaseOrder>, nextOrderId: int)
  {
    && 0 < nextOrderId
    && (forall i :: 0 <= i < |orders| ==> 0 < orders[i].id < nextOrderId)
    && (forall i, j :: 0 <= i < j < |orders| ==> orders[i].id != orders[j].id)
  }

  ghost predicate ItemKeys(items: seq<PurchaseOrderItem>, nextItemId: int)
  {
    && 0 < nextItemId
    && (forall i :: 0 <= i < |items| ==> 0 < items[i].id < nextItemId)
    && (forall i, j :: 0 <= i < j < |items| ==> items[i].id != items[j].id)
  }

  ghost predicate ProductKeys(products: seq<Product>)
  {
    forall i, j :: 0 <= i < j < |products| ==> products[i].id != products[j].id
  }

  ghost predicate OrderExists(orders: seq<PurchaseOrder>, id: int)
  {
    exists j :: 0 <= j < |orders| && orders[j].id == id
  }

  ghost predicate ProductExists(products: seq<Product>, id: int)
  {
    exists j :: 0 <= j < |products| && products[j].id == id
  }

  /** The existence predicates used by the foreign keys agree with the lookups. */
  lemma ExistsIffFound(orders: seq<PurchaseOrder>, products: seq<Product>, id: int)
    ensures OrderExists(orders, id) <==> FindOrderById(orders, id).Some?
    ensures ProductExists(products, id) <==> FindProduct(products, id).Some?
  {
  }

  /** Foreign key `FK_PurchaseOrderItem_PurchaseOrder_PurchaseOrderId`. */
  ghost predicate ItemsReferToOrders(items: seq<PurchaseOrderItem>, orders: seq<PurchaseOrder>)
  {
    forall i :: 0 <= i < |items| ==> OrderExists(orders, items[i].purchaseOrderId)
  }

  /** Foreign key `FK_PurchaseOrderItem_Product_ProductId`. */
  ghost predicate ItemsReferToProducts(items: seq<PurchaseOrderItem>, products: seq<Product>)
  {
    forall i :: 0 <= i < |items| ==> ProductExists(products, items[i].productId)
  }

  /** Foreign key `FK_InventoryTransaction_Product_ProductId`. */
  ghost predicate TransactionsReferToProducts(transactions: seq<InventoryTransaction>, products: seq<Product>)
  {
    forall i :: 0 <= i < |transactions| ==> ProductExists(products, transactions[i].productId)
  }

  /** The primary and foreign keys of the tables the core touches. */
  ghost predicate ValidTables(
    orders: seq<PurchaseOrder>, items: seq<PurchaseOrderItem>, products: seq<Product>,
    transactions: seq<InventoryTransaction>, nextOrderId: int, nextItemId: int)
  {
    && OrderKeys(orders, nextOrderId)
    && ItemKeys(items, nextItemId)
    && ProductKeys(products)
    && ItemsReferToOrders(items, orders)
    && ItemsReferToProducts(items, products)
    && TransactionsReferToProducts(transactions, products)
  }

  /** The database context shared by the services of one scope. */
  class Database {
    var purchaseOrders: seq<PurchaseOrder>
    var purchaseOrderItems: seq<PurchaseOrderItem>
    var products: seq<Product>
    var taxes: seq<Tax>
    var inventoryTransactions: seq<InventoryTransaction>
    var nextPurchaseOrderId: int
    var nextPurchaseOrderItemId: int

    ghost predicate Valid()
      reads this
    {
      ValidTables(purchaseOrders, purchaseOrderItems, products, inventoryTransactions,
                  nextPurchaseOrderId, nextPurchaseOrderItemId)
    }

    constructor (
      orders: seq<PurchaseOrder>, items: seq<PurchaseOrderItem>, products: seq<Product>,
      taxes: seq<Tax>, transactions: seq<InventoryTransaction>, nextOrderId: int, nextItemId: int)
      requires ValidTables(orders, items, products, transactions, nextOrderId, nextItemId)
      ensures Valid()
      ensures purchaseOrders == orders && purchaseOrderItems == items && this.products == products
      ensures this.taxes == taxes && inventoryTransactions == transactions
      ensures nextPurchaseOrderId == nextOrderId && nextPurchaseOrderItemId == nextItemId
    {
      purchaseOrders, purchaseOrderItems := orders, items;
      this.products, this.taxes, inventoryTransactions := products, taxes, transactions;
      nextPurchaseOrderId, nextPurchaseOrderItemId := nextOrderId, nextItemId;
    }

    /** Inserts a purchase order; the identity column gives it the next id. */
    method AddPurchaseOrder(order: PurchaseOrder) returns (id: int)
      requires Valid()
      modifies this
      ensures Valid()
      ensures id == old(nextPurchaseOrderId) && nextPurchaseOrderId == id + 1
      ensures purchaseOrders == old(purchaseOrders) + [order.(id := id)]
      ensures purchaseOrderItems == old(purchaseOrderItems) && products == old(products)
      ensures taxes == old(taxes) && inventoryTransactions == old(inventoryTransactions)
      ensures nextPurchaseOrderItemId == old(nextPurchaseOrderItemId)
    {
      id := nextPurchaseOrderId;
      ghost var before, items := purchaseOrders, purchaseOrderItems;
      assert ItemsReferToOrders(items, before);
      purchaseOrders := purchaseOrders + [order.(id := id)];
      nextPurchaseOrderId := id + 1;
      forall i | 0 <= i < |items|
        ensures OrderExists(purchaseOrders, items[i].purchaseOrderId)
      {
        assert OrderExists(before, items[i].purchaseOrderId);
        var j :| 0 <= j < |before| && before[j].id == items[i].purchaseOrderId;
        assert purchaseOrders[j] == before[j];
      }
    }

    /** Inserts a purchase-order item that refers to an existing order and product. */
    method AddPurchaseOrderItem(item: PurchaseOrderItem) returns (id: int)
      requires Valid()
      requires OrderExists(purchaseOrders, item.purchaseOrderId)
      requires ProductExists(products, item.productId)
      modifies this
      ensures Valid()
      ensures id == old(nextPurchaseOrderItemId) && nextPurchaseOrderItemId == id + 1
      ensures purchaseOrderItems == old(purchaseOrderItems) + [item.(id := id)]
      ensures purchaseOrders == old(purchaseOrders) && products == old(products)
      ensures taxes == old(taxes) && inventoryTransactions == old(inventoryTransactions)
      ensures nextPurchaseOrderId == old(nextPurchaseOrderId)
    {
      id := nextPurchaseOrderItemId;
      ghost var before := purchaseOrderItems;
      purchaseOrderItems := purchaseOrderItems + [item.(id := id)];
      nextPurchaseOrderItemId := id + 1;
      assert forall i :: 0 <= i < |before| ==> purchaseOrderItems[i] == before[i];
    }
  }
}
