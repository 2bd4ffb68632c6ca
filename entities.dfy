/** Rows of the tables the replenishment engine reads and writes, and the
    nullable arithmetic the money columns obey.

    Money columns are `float NULL` in the schema and `double?` in the entity
    classes; they are modelled as `Option<real>` (no rounding), and `+`, `*`
    and `/` on them follow C#'s lifted operators: a null operand gives null. */
module Entities {

  datatype Option<+T> = None | Some(value: T)

  /** A value of `DateTime.Now`: an opaque instant supplied by the caller. */
  type DateTime = int

  /** Lifted `+` on `double?`. */
  function Plus(a: Option<real>, b: Option<real>): Option<real>
  {
    if a.Some? && b.Some? then Some(a.value + b.value) else None
  }

  /** Lifted `*` on `double?`. */
  function Times(a: Option<real>, b: Option<real>): Option<real>
  {
    if a.Some? && b.Some? then Some(a.value * b.value) else None
  }

  /** Lifted `p / 100.0`: a tax percentage as a rate. */
  function Rate(p: Option<real>): Option<real>
  {
    if p.Some? then Some(p.value / 100.0) else None
  }

  /** The purchase-order status enumeration; only `Draft` is named by the core. */
  datatype PurchaseOrderStatus = Draft | OtherStatus(code: int)

  /** A row of `Tax`; `Percentage` is nullable. */
  datatype Tax = Tax(id: int, name: string, percentage: Option<real>)

  /** A row of `Product` (the columns the core reads). */
  datatype Product = Product(
    id: int,
    name: string,
    unitPrice: real,
    physical: bool,
    threshold: int)

  /** A row of `InventoryTransaction`: a movement and the stock value posted with it. */
  datatype InventoryTransaction = InventoryTransaction(
    id: int,
    warehouseId: int,
    productId: int,
    movement: real,
    stock: real)

  /** A row of `PurchaseOrder` with its audit columns. */
  datatype PurchaseOrder = PurchaseOrder(
    id: int,
    number: Option<string>,
    orderDate: Option<DateTime>,
    orderStatus: Option<PurchaseOrderStatus>,
    vendorId: int,
    taxId: int,
    beforeTaxAmount: Option<real>,
    taxAmount: Option<real>,
    afterTaxAmount: Option<real>,
    updatedByUserId: Option<string>,
    updatedAtUtc: Option<DateTime>,
    isNotDeleted: bool)

  /** A row of `PurchaseOrderItem`. */
  datatype PurchaseOrderItem = PurchaseOrderItem(
    id: int,
    purchaseOrderId: int,
    productId: int,
    summary: Option<string>,
    unitPrice: Option<real>,
    quantity: Option<real>,
    total: Option<real>,
    isNotDeleted: bool)
}
