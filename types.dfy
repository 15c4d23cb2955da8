/**
 * The records of the hardware-store ledger: products, customers, suppliers,
 * sales with their lines, and supplier purchase orders.
 *
 * Money amounts are exact `real`s (prices, line totals, tax, lifetime spend);
 * counts of units are `int`s; instants are opaque `int` timestamps; identities
 * and references are plain strings.
 */
module Types {

  datatype Option<T> = None | Some(value: T) {
    function GetOr(default: T): T {
      match this
      case Some(v) => v
      case None => default
    }
  }

  type Id = string
  type Timestamp = int

  /** An item of the inventory. `supplier` is a weak reference to a Supplier id. */
  datatype Product = Product(
    id: Id,
    name: string,
    category: string,
    price: real,
    stock: int,
    minStock: int,
    maxStock: int,
    supplier: Id,
    description: string,
    barcode: Option<string>,
    createdAt: Timestamp,
    updatedAt: Timestamp)

  /** Peruvian identity documents: national id (DNI) or tax registration (RUC). */
  datatype IdentityDocument = DNI | RUC

  datatype Customer = Customer(
    id: Id,
    name: string,
    email: string,
    phone: string,
    address: string,
    documentType: IdentityDocument,
    documentNumber: string,
    createdAt: Timestamp,
    totalPurchases: real)

  datatype Supplier = Supplier(
    id: Id,
    name: string,
    email: string,
    phone: string,
    address: string,
    ruc: string,
    contactPerson: string,
    paymentTerms: string,
    createdAt: Timestamp)

  /** A line of a sale. `total` is stored, not derived by the record itself. */
  datatype SaleItem = SaleItem(
    productId: Id,
    productName: string,
    quantity: int,
    unitPrice: real,
    total: real)

  /** Cash, card, bank transfer, and the Yape and Plin mobile wallets. */
  datatype PaymentMethod = Efectivo | Tarjeta | Transferencia | Yape | Plin

  /** A receipt (boleta) or an invoice (factura). */
  datatype DocumentType = Boleta | Factura

  datatype SaleStatus = Completed | Pending | Cancelled

  /** `customerId` is optional (walk-in customers); `customerName` is always there. */
  datatype Sale = Sale(
    id: Id,
    customerId: Option<Id>,
    customerName: string,
    items: seq<SaleItem>,
    subtotal: real,
    tax: real,
    total: real,
    paymentMethod: PaymentMethod,
    documentType: DocumentType,
    documentNumber: string,
    createdAt: Timestamp,
    status: SaleStatus)

  datatype PurchaseItem = PurchaseItem(
    productId: Id,
    productName: string,
    quantity: int,
    unitPrice: real,
    total: real)

  datatype PurchaseStatus = OrderPending | OrderReceived | OrderCancelled

  /** A supplier order; nothing in the store changes stock when it is received. */
  datatype Purchase = Purchase(
    id: Id,
    supplierId: Id,
    supplierName: string,
    items: seq<PurchaseItem>,
    subtotal: real,
    tax: real,
    total: real,
    status: PurchaseStatus,
    orderDate: Timestamp,
    expectedDate: Option<Timestamp>,
    receivedDate: Option<Timestamp>)
}
