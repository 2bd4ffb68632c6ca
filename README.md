# Automatic purchase-order replenishment and order totals

This project is a Dafny model of the replenishment engine of an ASP.NET Core
inventory and order-management system. It covers three parts:

- **Order-total recalculation** (`PurchaseOrderService.RecalculateParentAsync`)
  and the audited `UpdateAsync` that triggers it. The model loads one live
  purchase order with its tax and the order's live items. It resets
  `BeforeTaxAmount` and adds each item's `Total` to it. It sets `TaxAmount`
  only when a tax is attached. It sets `AfterTaxAmount` to
  `BeforeTaxAmount + TaxAmount` and writes the row back.
- **Last-order lookup** (`GetLastPurchaseOrderItemForProduct`,
  `GetLastOrderDetailsForProduct`). It finds the item of a product with the
  greatest id, and that item's parent order.
- **The replenishment tick** (`InventoryCheckService.CheckInventoryAndCreatePurchaseOrders`).
  - The low-stock query filters the inventory-transaction rows one by one,
    groups them by (product, threshold), sums `Stock` and filters on the sum.
  - For each entry the tick adds a Draft purchase order and one item. Values
    come from the fallback chain: last vendor or tax, else 1; last unit price,
    else the product's price; last quantity, else 20.

Modules:

- `Entities` (`entities.dfy`): the table rows, and the C# lifted arithmetic
  on the nullable `double?` money columns. Money is `Option<real>`, and a
  null operand gives null.
- `Data` (`data.dfy`): the key lookups, and the primary- and foreign-key
  constraints of the schema as `ValidTables`. It also holds the `Database`
  class, whose fields are the tables and the two identity counters. Its
  `AddPurchaseOrder` and `AddPurchaseOrderItem` insert rows and assign the
  next identity value.
- `PurchaseOrderService` (`purchase_order_service.dfy`): recalculation,
  update and the last-order queries.
  - `RecalculateParent` is an imperative method with the source's
    accumulation loop. It is proved against the specification function
    `RecalculateOrders`.
  - `Update` is a method that writes the stamped row and then runs the
    recalculation.
  - The queries are pure functions.
- `InventoryCheckService` (`inventory_check_service.dfy`): the low-stock
  selection and the reorder loop.
  - The selection is pure functions: `LowStockItems` and its parts.
  - The reorder loop is methods on `Database`: `ReorderProduct` is one loop
    body, and `ReorderAll` is the `foreach`. They are proved against the
    specification functions `CreatedOrders` and `CreatedItems`.
  - The loop does its lookups against the tables as they change. Its
    contract states each created row in terms of the tables before the tick.
    This holds because the entries of the low-stock list are about distinct
    products, and every row the tick adds belongs to one of those products.

Behaviour the model takes as the code has it, where a reader might expect
otherwise:

- The loop does not skip a product whose lookup returns null. It
  dereferences the result (`InventoryCheckService.cs:57-60`), so no
  skip-and-continue path is modelled.
- The timer callback has no re-entrancy guard (`InventoryCheckService.cs:32-36`).
- Adding an item is not shown to trigger recalculation. The tick's `AddAsync`
  calls are modelled as plain inserts (`InventoryCheckService.cs:71,85`).
- When no tax is attached, `TaxAmount` keeps its previous value. It is not
  set to zero or null (`PurchaseOrderService.cs:42-46`).
- The stock of a group is the sum of the `Stock` column over the rows that
  each pass the per-row filter (`InventoryCheckService.cs:44-46`). It is not
  a sum of movements.

## Model

| member | source | states |
|---|---|---|
| Data.FindOrderById | Applications/PurchaseOrders/PurchaseOrderService.cs:89-95 | The parent order reached through the `PurchaseOrder` navigation is a row of the table with that key; there is none exactly when no row has the key |
| Data.FindProduct | Infrastructures/InventoryCheckService/InventoryCheckService.cs:57 | `GetByIdAsync` gives a product row with the requested key, and null exactly when no row has it |
| Data.FindTax | Applications/PurchaseOrders/PurchaseOrderService.cs:27 | The included `Tax` is a tax row with the order's `TaxId`, and null exactly when no tax has that key |
| Data.FindOrderByIdAppend | Infrastructures/InventoryCheckService/InventoryCheckService.cs:60-71 | Orders added after an order that is already found do not change which order the key finds |
| Data.Database.constructor | Migrations/20241030011106_Version1.cs:1108-1125 | A store is built only over tables that satisfy the primary keys and the foreign keys from items to orders and products |
| Data.Database.AddPurchaseOrder | Infrastructures/InventoryCheckService/InventoryCheckService.cs:71 | Inserting an order appends it with the next identity value as its id, advances the counter, leaves the other tables alone and keeps the key constraints |
| Data.Database.AddPurchaseOrderItem | Infrastructures/InventoryCheckService/InventoryCheckService.cs:85 | Inserting an item whose order and product exist appends it with the next identity id, advances the counter, leaves the other tables alone and keeps the key constraints |
| PurchaseOrderService.MasterIndex | Applications/PurchaseOrders/PurchaseOrderService.cs:26-29 | The master query finds the first order whose id equals `masterId` and that is not soft-deleted; it finds nothing exactly when no such order exists, including when `masterId` is null |
| PurchaseOrderService.ChildrenMeaning | Applications/PurchaseOrders/PurchaseOrderService.cs:31-33 | An item is summed exactly when it is in the table, belongs to `masterId` and is not soft-deleted |
| PurchaseOrderService.SumTotalsMeaning | Applications/PurchaseOrders/PurchaseOrderService.cs:37-41 | The accumulated `BeforeTaxAmount` is null exactly when some item's `Total` is null; otherwise it is the arithmetic sum of the totals |
| PurchaseOrderService.ChildrenAppend | Applications/PurchaseOrders/PurchaseOrderService.cs:31-33 | The items query over two parts of the table is the concatenation of the query over each part |
| PurchaseOrderService.RecalculateOrders | Applications/PurchaseOrders/PurchaseOrderService.cs:26-49 | With no live master the table is unchanged. Otherwise only the master row changes, and only in its three amounts. `BeforeTaxAmount` is the sum of the live child totals. `TaxAmount` is `Percentage/100 × BeforeTaxAmount` with a tax, and is kept without one. `AfterTaxAmount` is `BeforeTaxAmount + TaxAmount` |
| PurchaseOrderService.MasterIndexSameKeys | Applications/PurchaseOrders/PurchaseOrderService.cs:28 | The master query depends only on the ids and soft-delete flags of the orders |
| PurchaseOrderService.RecalculateIdempotent | Applications/PurchaseOrders/PurchaseOrderService.cs:37-48 | Recalculating an order a second time changes nothing |
| PurchaseOrderService.RecalculateIgnoresNonChild | Applications/PurchaseOrders/PurchaseOrderService.cs:31-33 | Inserting a soft-deleted item, or an item of another order, anywhere in the item table does not change the result of the recalculation |
| PurchaseOrderService.RecalculateTenPercent | Applications/PurchaseOrders/PurchaseOrderService.cs:37-46 | With a 10% tax and live item totals of 150 and 50, the amounts are 200, 20 and 220; a deleted item and an item of another order are ignored |
| PurchaseOrderService.SameOrderKeysKeepValid | Applications/PurchaseOrders/PurchaseOrderService.cs:47-48 | Writing back order rows that keep their ids keeps the key and foreign-key constraints |
| PurchaseOrderService.RecalculateParent | Applications/PurchaseOrders/PurchaseOrderService.cs:23-50 | The loop leaves the order table equal to `RecalculateOrders` of the old tables. Items, taxes, products, transactions and counters are unchanged, and the key constraints are kept |
| PurchaseOrderService.Update | Applications/PurchaseOrders/PurchaseOrderService.cs:54-76 | A null entity fails and changes no order. Otherwise the stamped entity is written over the row with its key, and then that order is recalculated; the other tables are unchanged |
| PurchaseOrderService.UpdatedOrderIsConsistent | Applications/PurchaseOrders/PurchaseOrderService.cs:58-70 | After updating a live order, its row has the entity's columns. `UpdatedByUserId` is set only for a non-empty user id, and `UpdatedAtUtc` is always the update time. The amounts are consistent with the order's live items |
| PurchaseOrderService.LastItemIndex | Applications/PurchaseOrders/PurchaseOrderService.cs:80-83 | The chosen item is of the product and has the greatest id among the product's items, soft-deleted ones included; the first such row wins a tie; nothing is chosen exactly when the product has no item |
| PurchaseOrderService.GetLastPurchaseOrderItemForProduct | Applications/PurchaseOrders/PurchaseOrderService.cs:78-84 | The result is null exactly when the product has no item; otherwise it is an item of the product whose id no other item of the product exceeds |
| PurchaseOrderService.GetLastOrderDetailsForProduct | Applications/PurchaseOrders/PurchaseOrderService.cs:87-96 | The item component is `GetLastPurchaseOrderItemForProduct`. The pair is (null, null) when there is no item. The order component is the order the item points at, and it is present whenever that order exists |
| PurchaseOrderService.LastItemIndexAppend | Applications/PurchaseOrders/PurchaseOrderService.cs:80-83 | Items of other products appended to the table do not change the chosen item |
| PurchaseOrderService.LastOrderDetailsAfterInserts | Applications/PurchaseOrders/PurchaseOrderService.cs:89-95 | Orders added, and items of other products added, do not change the last-order details of a product, as long as every old item's order exists |
| InventoryCheckService.GroupKeys | Infrastructures/InventoryCheckService/InventoryCheckService.cs:45 | The group keys are distinct, and a key is present exactly when some projected row has it |
| InventoryCheckService.AtOrBelowThreshold | Infrastructures/InventoryCheckService/InventoryCheckService.cs:47 | A group is kept exactly when its summed stock is at most its threshold, and distinct products stay distinct |
| InventoryCheckService.GroupSumRows | Infrastructures/InventoryCheckService/InventoryCheckService.cs:44-46 | A group's `Sum(Stock)` equals the stock summed over exactly the transaction rows that pass the per-row filter with that key |
| InventoryCheckService.RowsKeySound | Infrastructures/InventoryCheckService/InventoryCheckService.cs:44-45 | Every projected row comes from a transaction row that passes the per-row filter with the same key |
| InventoryCheckService.RowsKeyComplete | Infrastructures/InventoryCheckService/InventoryCheckService.cs:44-45 | Every transaction row that passes the per-row filter gives a projected row with its key |
| InventoryCheckService.GroupKeyProduct | Infrastructures/InventoryCheckService/InventoryCheckService.cs:43-45 | A group key names a physical product and that product's threshold, and some qualifying row has it |
| InventoryCheckService.GroupsDistinct | Infrastructures/InventoryCheckService/InventoryCheckService.cs:45-46 | No two groups are about the same product |
| InventoryCheckService.GroupMeaning | Infrastructures/InventoryCheckService/InventoryCheckService.cs:44-46 | Each group is for a physical product with its threshold and has a qualifying row. Its stock is the sum over that product's qualifying rows |
| InventoryCheckService.LowStockItems | Infrastructures/InventoryCheckService/InventoryCheckService.cs:42-48 | Every entry is for a product that exists and is physical, with its threshold, and has at least one qualifying row. Its stock is the sum over only the rows whose own stock is at or below the threshold, and that sum is at or below the threshold. No product appears twice |
| InventoryCheckService.ThresholdIsInclusive | Infrastructures/InventoryCheckService/InventoryCheckService.cs:44-47 | With threshold 10, a stock of 10 is listed and a stock of 11 is not. Two rows of 6 and 5 pass the row filter but sum to 11 and are not listed |
| InventoryCheckService.LowStockListedIff | Infrastructures/InventoryCheckService/InventoryCheckService.cs:44-47 | A (product, threshold) key is listed exactly when some qualifying row has it and its qualifying rows sum to at most the threshold |
| InventoryCheckService.CreatedOrderAt | Infrastructures/InventoryCheckService/InventoryCheckService.cs:55-71 | The j-th created order is the Draft order built for the j-th entry's product, with id `nextOrderId + j` |
| InventoryCheckService.CreatedItemAt | Infrastructures/InventoryCheckService/InventoryCheckService.cs:75-85 | The j-th created item is the item built for the j-th entry's product. It has id `nextItemId + j` and points at order `nextOrderId + j` |
| InventoryCheckService.CreatedOrderFields | Infrastructures/InventoryCheckService/InventoryCheckService.cs:63-71 | Each created order is Draft, numbered `"PO-"` plus its token, dated at its instant, with the last order's vendor and tax or 1 when there is no last order, and no amounts |
| InventoryCheckService.CreatedItemFields | Infrastructures/InventoryCheckService/InventoryCheckService.cs:75-82 | Each created item points at the order created for the same entry and carries the product's id and name. Its unit price is the last item's non-null price, else the product's price. Its quantity is the last item's non-null quantity, else 20 |
| InventoryCheckService.ReorderProduct | Infrastructures/InventoryCheckService/InventoryCheckService.cs:57-85 | One loop iteration appends one order built from the product's last order, then one item pointing at that order's new id and built from the last item. Counters advance by one, the other tables are unchanged, and the key constraints are kept |
| InventoryCheckService.TickStep | Infrastructures/InventoryCheckService/InventoryCheckService.cs:57-60 | The lookups of a later iteration, made against the tables as the earlier iterations left them, give what they gave before the tick |
| InventoryCheckService.ReorderNext | Infrastructures/InventoryCheckService/InventoryCheckService.cs:55-87 | After iteration i, the tables hold the old rows followed by the rows created for the first i+1 entries |
| InventoryCheckService.ReorderAll | Infrastructures/InventoryCheckService/InventoryCheckService.cs:55-87 | The loop appends exactly one order and one item per low-stock entry, in list order. Each is stated against the tables before the loop. Counters advance by the list length, and nothing else changes |
| InventoryCheckService.LowStockProductsFound | Infrastructures/InventoryCheckService/InventoryCheckService.cs:43-44 | Every product of the low-stock list is in the product table |
| InventoryCheckService.CheckInventoryAndCreatePurchaseOrders | Infrastructures/InventoryCheckService/InventoryCheckService.cs:36-90 | A tick appends the orders and items created for the low-stock list and nothing else. For an empty list the order and item tables are unchanged. The key constraints are kept |

## Left out

- The `Timer` scheduling, `StartAsync`, `StopAsync` and `Dispose`
  (`InventoryCheckService.cs:30-34, 92-101`), and the `async void` callback.
  These are host lifecycle and concurrency. One tick is modelled as one call.
  The source has no re-entrancy guard, and the model adds none.
- The e-mail notification and the body text built for it
  (`InventoryCheckService.cs:73, 86`). This is external I/O.
- `Guid.NewGuid()` and `DateTime.Now`. They are parameters:
  - `tokens(i)` is the eight-character number suffix of iteration i;
  - `clock(i)` is the time of iteration i;
  - `now` is the time passed to `Update`.
- The current user id of `UpdateAsync` is a parameter (`userId`).
- `PurchaseOrderItem.RecalculateTotal()` is not part of this model. It is the
  parameter `recalculateTotal`, and the item's `Total` is whatever it gives.
- The `Repository<T>` base class is not part of this model. This covers
  `GetAll`'s filtering, `GetByIdAsync`'s filtering and the audit stamping done
  by `AddAsync`. The tick reads every transaction row; the product lookup
  reads the product table by key; the rows inserted by the tick carry no
  audit stamp.
- Whether adding an item triggers recalculation is not modelled: that code
  is not visible. Items created by the tick leave their order's amounts
  null.
- EF Core change tracking, `Include` and `SaveChangesAsync` are not
  modelled. Each write is applied to the tables at once.
- EF `Update` of an entity whose key is not in the table is not modelled.
  EF would try an insert or raise a concurrency error; the model leaves the
  table unchanged.
- Soft-delete flags of `Product`, `Tax` and `InventoryTransaction` are not
  modelled. No query visible in the core filters on them; the repository's
  own filtering is covered above.
- A product that is missing when the loop looks it up (a null dereference
  in the source) is not modelled. The model requires the product to exist.
  This always holds for products taken from the low-stock list, which are
  found through the same table.
- The `AutoReorder` column is not modelled. The selection never reads it.
- The order of groups in the low-stock list is fixed to first appearance in
  the transaction table. SQL leaves it unspecified. Every property proved
  about a single entry holds whatever the order.
- Floating-point rounding of the `float` columns is not modelled. Money is
  `real`, and thresholds are compared after an exact conversion to `real`.
- Data.Database.AddPurchaseOrder: does not model the foreign keys
  `FK_PurchaseOrder_Tax_TaxId` and `FK_PurchaseOrder_Vendor_VendorId`
  (`Migrations/20241030011106_Version1.cs:924-935`). The source's save
  fails when the order's `TaxId` or `VendorId` has no row. This can happen
  for the default of 1 the tick uses (`InventoryCheckService.cs:67,69`). In
  the model the insert always succeeds, because vendors are not modelled
  and `ValidTables` does not constrain an order's tax.
- PurchaseOrderService.Update: does not model the failure of the save at
  `PurchaseOrderService.cs:68` when the entity's `TaxId` or `VendorId` has
  no row. In the model the entity is always written and recalculated.
- The ids of created rows are stated as `nextOrderId + j` and
  `nextItemId + j`. This assumes the identity columns hand out consecutive
  values. It also assumes no other request writes to the order tables while
  a tick runs; the source takes no lock. The property the loop itself relies
  on does not depend on this: each item points at the order added just
  before it, in the same iteration (`InventoryCheckService.cs:71,77`).
