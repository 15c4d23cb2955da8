/**
 * The entity store: five in-memory collections (products, customers,
 * suppliers, sales, purchases), their add/update/delete operations, sale
 * posting, and the low-stock query.
 *
 * Each operation replaces a collection with a new one, as the store's setters
 * do: add appends one record with a caller-supplied fresh id, update merges a
 * partial record into every record with the given id, delete filters the id
 * out. Posting a sale numbers it from the history, lowers the stock of each
 * sold product (reading stock from the collection as it was when posting
 * began), credits the resolved customer, and appends the sale.
 */
module Store {
  import opened Types
  import opened Seqs
  import opened DocumentNumbers

  // ---------------------------------------------------------------------------
  // Drafts: the argument of each add operation, i.e. the record without the
  // fields the store generates.

  datatype ProductDraft = ProductDraft(
    name: string, category: string, price: real, stock: int, minStock: int, maxStock: int,
    supplier: Id, description: string, barcode: Option<string>)

  datatype CustomerDraft = CustomerDraft(
    name: string, email: string, phone: string, address: string,
    documentType: IdentityDocument, documentNumber: string)

  datatype SupplierDraft = SupplierDraft(
    name: string, email: string, phone: string, address: string, ruc: string,
    contactPerson: string, paymentTerms: string)

  datatype SaleDraft = SaleDraft(
    customerId: Option<Id>, customerName: string, items: seq<SaleItem>,
    subtotal: real, tax: real, total: real,
    paymentMethod: PaymentMethod, documentType: DocumentType, status: SaleStatus)

  datatype PurchaseDraft = PurchaseDraft(
    supplierId: Id, supplierName: string, items: seq<PurchaseItem>,
    subtotal: real, tax: real, total: real, status: PurchaseStatus,
    orderDate: Timestamp, expectedDate: Option<Timestamp>, receivedDate: Option<Timestamp>)

  function ProductDraftOf(p: Product): ProductDraft {
    ProductDraft(p.name, p.category, p.price, p.stock, p.minStock, p.maxStock, p.supplier, p.description, p.barcode)
  }

  function CustomerDraftOf(c: Customer): CustomerDraft {
    CustomerDraft(c.name, c.email, c.phone, c.address, c.documentType, c.documentNumber)
  }

  function SupplierDraftOf(s: Supplier): SupplierDraft {
    SupplierDraft(s.name, s.email, s.phone, s.address, s.ruc, s.contactPerson, s.paymentTerms)
  }

  function SaleDraftOf(s: Sale): SaleDraft {
    SaleDraft(s.customerId, s.customerName, s.items, s.subtotal, s.tax, s.total, s.paymentMethod, s.documentType, s.status)
  }

  function PurchaseDraftOf(p: Purchase): PurchaseDraft {
    PurchaseDraft(p.supplierId, p.supplierName, p.items, p.subtotal, p.tax, p.total, p.status,
                  p.orderDate, p.expectedDate, p.receivedDate)
  }

  // ---------------------------------------------------------------------------
  // Patches: the partial records that update operations merge in. `None`
  // leaves a field as it is. A product patch has no `updatedAt`, which the
  // store overwrites with the current time anyway.

  datatype ProductPatch = ProductPatch(
    id: Option<Id>, name: Option<string>, category: Option<string>, price: Option<real>,
    stock: Option<int>, minStock: Option<int>, maxStock: Option<int>, supplier: Option<Id>,
    description: Option<string>, barcode: Option<Option<string>>, createdAt: Option<Timestamp>)

  datatype CustomerPatch = CustomerPatch(
    id: Option<Id>, name: Option<string>, email: Option<string>, phone: Option<string>,
    address: Option<string>, documentType: Option<IdentityDocument>, documentNumber: Option<string>,
    createdAt: Option<Timestamp>, totalPurchases: Option<real>)

  datatype SupplierPatch = SupplierPatch(
    id: Option<Id>, name: Option<string>, email: Option<string>, phone: Option<string>,
    address: Option<string>, ruc: Option<string>, contactPerson: Option<string>,
    paymentTerms: Option<string>, createdAt: Option<Timestamp>)

  datatype PurchasePatch = PurchasePatch(
    id: Option<Id>, supplierId: Option<Id>, supplierName: Option<string>, items: Option<seq<PurchaseItem>>,
    subtotal: Option<real>, tax: Option<real>, total: Option<real>, status: Option<PurchaseStatus>,
    orderDate: Option<Timestamp>, expectedDate: Option<Option<Timestamp>>, receivedDate: Option<Option<Timestamp>>)

  const NoProductChanges := ProductPatch(None, None, None, None, None, None, None, None, None, None, None)
  const NoCustomerChanges := CustomerPatch(None, None, None, None, None, None, None, None, None)

  /** `{ ...product, ...updates, updatedAt: now }` */
  function ApplyProductPatch(p: Product, u: ProductPatch, now: Timestamp): Product {
    Product(u.id.GetOr(p.id), u.name.GetOr(p.name), u.category.GetOr(p.category), u.price.GetOr(p.price),
            u.stock.GetOr(p.stock), u.minStock.GetOr(p.minStock), u.maxStock.GetOr(p.maxStock),
            u.supplier.GetOr(p.supplier), u.description.GetOr(p.description), u.barcode.GetOr(p.barcode),
            u.createdAt.GetOr(p.createdAt), now)
  }

  /** `{ ...customer, ...updates }` */
  function ApplyCustomerPatch(c: Customer, u: CustomerPatch): Customer {
    Customer(u.id.GetOr(c.id), u.name.GetOr(c.name), u.email.GetOr(c.email), u.phone.GetOr(c.phone),
             u.address.GetOr(c.address), u.documentType.GetOr(c.documentType),
             u.documentNumber.GetOr(c.documentNumber), u.createdAt.GetOr(c.createdAt),
             u.totalPurchases.GetOr(c.totalPurchases))
  }

  /** `{ ...supplier, ...updates }` */
  function ApplySupplierPatch(s: Supplier, u: SupplierPatch): Supplier {
    Supplier(u.id.GetOr(s.id), u.name.GetOr(s.name), u.email.GetOr(s.email), u.phone.GetOr(s.phone),
             u.address.GetOr(s.address), u.ruc.GetOr(s.ruc), u.contactPerson.GetOr(s.contactPerson),
             u.paymentTerms.GetOr(s.paymentTerms), u.createdAt.GetOr(s.createdAt))
  }

  /** `{ ...purchase, ...updates }` */
  function ApplyPurchasePatch(p: Purchase, u: PurchasePatch): Purchase {
    Purchase(u.id.GetOr(p.id), u.supplierId.GetOr(p.supplierId), u.supplierName.GetOr(p.supplierName),
             u.items.GetOr(p.items), u.subtotal.GetOr(p.subtotal), u.tax.GetOr(p.tax), u.total.GetOr(p.total),
             u.status.GetOr(p.status), u.orderDate.GetOr(p.orderDate), u.expectedDate.GetOr(p.expectedDate),
             u.receivedDate.GetOr(p.receivedDate))
  }

  // ---------------------------------------------------------------------------
  // The collections each update and delete operation leaves behind.

  function ProductIdIs(id: Id): Product -> bool { (p: Product) => p.id == id }
  function ProductPatcher(u: ProductPatch, now: Timestamp): Product -> Product { (p: Product) => ApplyProductPatch(p, u, now) }
  function CustomerIdIs(id: Id): Customer -> bool { (c: Customer) => c.id == id }
  function CustomerPatcher(u: CustomerPatch): Customer -> Customer { (c: Customer) => ApplyCustomerPatch(c, u) }

  /** Every product with `id` gets the patch and the new `updatedAt`; the others stay as they are. */
  function UpdateProducts(products: seq<Product>, id: Id, u: ProductPatch, now: Timestamp): (r: seq<Product>)
    ensures |r| == |products|
    ensures forall i :: 0 <= i < |products| ==>
      r[i] == if products[i].id == id then ApplyProductPatch(products[i], u, now) else products[i]
  {
    MapWhere(products, ProductIdIs(id), ProductPatcher(u, now))
  }

  function UpdateCustomers(customers: seq<Customer>, id: Id, u: CustomerPatch): (r: seq<Customer>)
    ensures |r| == |customers|
    ensures forall i :: 0 <= i < |customers| ==>
      r[i] == if customers[i].id == id then ApplyCustomerPatch(customers[i], u) else customers[i]
  {
    MapWhere(customers, CustomerIdIs(id), CustomerPatcher(u))
  }

  function UpdateSuppliers(suppliers: seq<Supplier>, id: Id, u: SupplierPatch): (r: seq<Supplier>)
    ensures |r| == |suppliers|
    ensures forall i :: 0 <= i < |suppliers| ==>
      r[i] == if suppliers[i].id == id then ApplySupplierPatch(suppliers[i], u) else suppliers[i]
  {
    MapWhere(suppliers, (s: Supplier) => s.id == id, (s: Supplier) => ApplySupplierPatch(s, u))
  }

  function UpdatePurchases(purchases: seq<Purchase>, id: Id, u: PurchasePatch): (r: seq<Purchase>)
    ensures |r| == |purchases|
    ensures forall i :: 0 <= i < |purchases| ==>
      r[i] == if purchases[i].id == id then ApplyPurchasePatch(purchases[i], u) else purchases[i]
  {
    MapWhere(purchases, (p: Purchase) => p.id == id, (p: Purchase) => ApplyPurchasePatch(p, u))
  }

  /** An update naming an id that no product has changes nothing (no error either). */
  lemma UpdateAbsentProduct(products: seq<Product>, id: Id, u: ProductPatch, now: Timestamp)
    requires !HasProduct(products, id)
    ensures UpdateProducts(products, id, u, now) == products
  {
  }

  lemma UpdateAbsentCustomer(customers: seq<Customer>, id: Id, u: CustomerPatch)
    requires forall i :: 0 <= i < |customers| ==> customers[i].id != id
    ensures UpdateCustomers(customers, id, u) == customers
  {
  }

  lemma UpdateAbsentSupplier(suppliers: seq<Supplier>, id: Id, u: SupplierPatch)
    requires forall i :: 0 <= i < |suppliers| ==> suppliers[i].id != id
    ensures UpdateSuppliers(suppliers, id, u) == suppliers
  {
  }

  lemma UpdateAbsentPurchase(purchases: seq<Purchase>, id: Id, u: PurchasePatch)
    requires forall i :: 0 <= i < |purchases| ==> purchases[i].id != id
    ensures UpdatePurchases(purchases, id, u) == purchases
  {
  }

  /**
   * A product update stamps the matching products with the current time,
   * whatever the patch says, and keeps their creation time unless the patch
   * sets one; customer, supplier and purchase updates have no such stamp.
   */
  lemma UpdatedProductStamped(products: seq<Product>, id: Id, u: ProductPatch, now: Timestamp, i: nat)
    requires i < |products| && products[i].id == id
    ensures UpdateProducts(products, id, u, now)[i].updatedAt == now
    ensures UpdateProducts(products, id, u, now)[i].createdAt == u.createdAt.GetOr(products[i].createdAt)
    ensures u.id.None? ==> UpdateProducts(products, id, u, now)[i].id == id
  {
  }

  /** The records with `id` are gone; every other record is kept, in order. */
  function WithoutProduct(products: seq<Product>, id: Id): (r: seq<Product>)
    ensures forall i :: 0 <= i < |r| ==> r[i].id != id
    ensures forall i :: 0 <= i < |products| && products[i].id != id ==> products[i] in r
    ensures IsSubsequence(r, products)
    ensures forall x :: multiset(r)[x] == if x.id != id then multiset(products)[x] else 0
  {
    var keep := (p: Product) => p.id != id;
    FilterMembers(products, keep);
    FilterOrder(products, keep);
    FilterMultiplicity(products, keep);
    Filter(products, keep)
  }

  function WithoutCustomer(customers: seq<Customer>, id: Id): (r: seq<Customer>)
    ensures forall i :: 0 <= i < |r| ==> r[i].id != id
    ensures forall i :: 0 <= i < |customers| && customers[i].id != id ==> customers[i] in r
    ensures IsSubsequence(r, customers)
    ensures forall x :: multiset(r)[x] == if x.id != id then multiset(customers)[x] else 0
  {
    var keep := (c: Customer) => c.id != id;
    FilterMembers(customers, keep);
    FilterOrder(customers, keep);
    FilterMultiplicity(customers, keep);
    Filter(customers, keep)
  }

  function WithoutSupplier(suppliers: seq<Supplier>, id: Id): (r: seq<Supplier>)
    ensures forall i :: 0 <= i < |r| ==> r[i].id != id
    ensures forall i :: 0 <= i < |suppliers| && suppliers[i].id != id ==> suppliers[i] in r
    ensures IsSubsequence(r, suppliers)
    ensures forall x :: multiset(r)[x] == if x.id != id then multiset(suppliers)[x] else 0
  {
    var keep := (s: Supplier) => s.id != id;
    FilterMembers(suppliers, keep);
    FilterOrder(suppliers, keep);
    FilterMultiplicity(suppliers, keep);
    Filter(suppliers, keep)
  }

  // ---------------------------------------------------------------------------
  // Identity.

  predicate HasProduct(products: seq<Product>, id: Id) {
    exists j :: 0 <= j < |products| && products[j].id == id
  }

  predicate ProductIdsDistinct(products: seq<Product>) {
    forall i, j :: 0 <= i < j < |products| ==> products[i].id != products[j].id
  }

  predicate CustomerIdsDistinct(customers: seq<Customer>) {
    forall i, j :: 0 <= i < j < |customers| ==> customers[i].id != customers[j].id
  }

  /** Position `k` holds the first product with `id`. */
  predicate FirstProductWith(products: seq<Product>, id: Id, k: int) {
    0 <= k < |products| && products[k].id == id && forall i :: 0 <= i < k ==> products[i].id != id
  }

  /** Position `k` holds the first customer with `id`. */
  predicate FirstCustomerWith(customers: seq<Customer>, id: Id, k: int) {
    0 <= k < |customers| && customers[k].id == id && forall i :: 0 <= i < k ==> customers[i].id != id
  }

  /** `products.find(p => p.id === id)!`: the first product with the id. */
  function Lookup(products: seq<Product>, id: Id): (p: Product)
    requires HasProduct(products, id)
    ensures p in products && p.id == id
  {
    var k := FirstIndex(products, (q: Product) => q.id == id);
    assert k < |products| by {
      var j :| 0 <= j < |products| && products[j].id == id;
    }
    products[k]
  }

  /** Like `find`, the lookup returns the first product with the id, whatever comes after it. */
  lemma LookupFirst(products: seq<Product>, id: Id, k: nat)
    requires FirstProductWith(products, id, k)
    ensures Lookup(products, id) == products[k]
  {
    var j := FirstIndex(products, (q: Product) => q.id == id);
    assert j <= k;
  }

  /** With distinct ids the lookup finds the very product at that position. */
  lemma LookupUnique(products: seq<Product>, j: nat)
    requires ProductIdsDistinct(products) && j < |products|
    ensures Lookup(products, products[j].id) == products[j]
  {
  }

  // ---------------------------------------------------------------------------
  // Low stock.

  predicate IsLowStock(p: Product) { p.stock <= p.minStock }

  /** `getLowStockProducts`: the products at or below their minimum, in store order. */
  function LowStockProducts(products: seq<Product>): (r: seq<Product>)
    ensures forall i :: 0 <= i < |r| ==> r[i] in products && r[i].stock <= r[i].minStock
    ensures forall i :: 0 <= i < |products| && products[i].stock <= products[i].minStock ==> products[i] in r
    ensures IsSubsequence(r, products)
    ensures forall x :: multiset(r)[x] == if x.stock <= x.minStock then multiset(products)[x] else 0
  {
    FilterMembers(products, IsLowStock);
    FilterOrder(products, IsLowStock);
    FilterMultiplicity(products, IsLowStock);
    Filter(products, IsLowStock)
  }

  /** A product with stock above its minimum is never reported. */
  lemma AboveMinimumNotReported(products: seq<Product>, p: Product)
    requires p.stock > p.minStock
    ensures p !in LowStockProducts(products)
  {
    var r := LowStockProducts(products);
    assert forall i :: 0 <= i < |r| ==> r[i] != p;
  }

  // ---------------------------------------------------------------------------
  // The effects of posting a sale.

  /** Every line of the sale names a product of the store (the source crashes otherwise). */
  predicate ItemsResolve(products: seq<Product>, items: seq<SaleItem>) {
    forall k :: 0 <= k < |items| ==> HasProduct(products, items[k].productId)
  }

  /** No two lines of the sale name the same product, as the cart guarantees. */
  predicate DistinctProductIds(items: seq<SaleItem>) {
    forall k, l :: 0 <= k < l < |items| ==> items[k].productId != items[l].productId
  }

  /** True on the lines that name product `id`. */
  function LineIs(id: Id): SaleItem -> bool { (item: SaleItem) => item.productId == id }

  predicate InSale(items: seq<SaleItem>, id: Id) {
    exists k :: 0 <= k < |items| && items[k].productId == id
  }

  function StockPatch(stock: int): ProductPatch { NoProductChanges.(stock := Some(stock)) }

  /** `p` with a new stock level and modification time, everything else kept. */
  function WithStock(p: Product, stock: int, now: Timestamp): (q: Product)
    ensures q.id == p.id && q.stock == stock && q.updatedAt == now
  {
    p.(stock := stock, updatedAt := now)
  }

  /** The products after a stock-only update of the products with `id`. */
  function SetStock(products: seq<Product>, id: Id, stock: int, now: Timestamp): (r: seq<Product>)
    ensures |r| == |products|
    ensures forall i :: 0 <= i < |products| ==>
      r[i] == if products[i].id == id then WithStock(products[i], stock, now) else products[i]
  {
    MapWhere(products, ProductIdIs(id), (p: Product) => WithStock(p, stock, now))
  }

  /** `updateProduct(id, { stock })` is a stock-only update that also stamps the time. */
  lemma StockPatchIsSetStock(products: seq<Product>, id: Id, stock: int, now: Timestamp)
    ensures UpdateProducts(products, id, StockPatch(stock), now) == SetStock(products, id, stock, now)
  {
    var r := UpdateProducts(products, id, StockPatch(stock), now);
    forall i | 0 <= i < |products| ensures r[i] == SetStock(products, id, stock, now)[i] {
      StockPatchApplied(products[i], stock, now);
    }
  }

  lemma StockPatchApplied(p: Product, stock: int, now: Timestamp)
    ensures ApplyProductPatch(p, StockPatch(stock), now) == WithStock(p, stock, now)
  {
  }

  /** The stock level `addSale` writes for a line: the level at posting time minus the quantity. */
  function LineStock(snapshot: seq<Product>, line: SaleItem): int
    requires HasProduct(snapshot, line.productId)
  {
    Lookup(snapshot, line.productId).stock - line.quantity
  }

  /**
   * The products after the stock updates of the first `n` lines, applied in
   * line order; each new level is computed from `snapshot`, the collection as
   * posting found it.
   */
  function StockAfterLines(snapshot: seq<Product>, items: seq<SaleItem>, n: nat, now: Timestamp): (r: seq<Product>)
    requires n <= |items| && ItemsResolve(snapshot, items)
    ensures |r| == |snapshot|
    decreases n
  {
    if n == 0 then snapshot
    else SetStock(StockAfterLines(snapshot, items, n - 1, now), items[n - 1].productId, LineStock(snapshot, items[n - 1]), now)
  }

  lemma StockAfterLinesStep(snapshot: seq<Product>, items: seq<SaleItem>, i: nat, now: Timestamp)
    requires i < |items| && ItemsResolve(snapshot, items)
    ensures HasProduct(snapshot, items[i].productId)
    ensures StockAfterLines(snapshot, items, i + 1, now)
            == SetStock(StockAfterLines(snapshot, items, i, now), items[i].productId, LineStock(snapshot, items[i]), now)
  {
  }

  /** The products after posting all lines of a sale. */
  function DecrementedStock(snapshot: seq<Product>, items: seq<SaleItem>, now: Timestamp): (r: seq<Product>)
    requires ItemsResolve(snapshot, items)
    ensures |r| == |snapshot|
  {
    StockAfterLines(snapshot, items, |items|, now)
  }

  /** A product that none of the first `n` lines names is unchanged by them. */
  lemma {:induction false} StockAfterLinesUnsold(snapshot: seq<Product>, items: seq<SaleItem>, n: nat, now: Timestamp, j: nat)
    requires n <= |items| && ItemsResolve(snapshot, items) && j < |snapshot|
    requires forall k :: 0 <= k < n ==> items[k].productId != snapshot[j].id
    ensures StockAfterLines(snapshot, items, n, now)[j] == snapshot[j]
    decreases n
  {
    if n > 0 {
      StockAfterLinesUnsold(snapshot, items, n - 1, now, j);
      var before := StockAfterLines(snapshot, items, n - 1, now);
      assert before[j].id != items[n - 1].productId;
    }
  }

  /** `p` differs from `q` at most in its stock level and modification time. */
  predicate SameExceptStock(p: Product, q: Product) {
    p == q.(stock := p.stock, updatedAt := p.updatedAt)
  }

  /** The stock updates change no field of any product but `stock` and `updatedAt`. */
  lemma {:induction false} StockAfterLinesShape(snapshot: seq<Product>, items: seq<SaleItem>, n: nat, now: Timestamp, j: nat)
    requires n <= |items| && ItemsResolve(snapshot, items) && j < |snapshot|
    ensures SameExceptStock(StockAfterLines(snapshot, items, n, now)[j], snapshot[j])
    decreases n
  {
    if n > 0 {
      StockAfterLinesShape(snapshot, items, n - 1, now, j);
    }
  }

  /**
   * The last of the first `n` lines that names a product decides its stock:
   * the level it had when posting began minus that line's quantity. Earlier
   * lines for the same product are overwritten, not added up.
   */
  lemma {:induction false} StockAfterLinesLastWins(snapshot: seq<Product>, items: seq<SaleItem>, n: nat, now: Timestamp, j: nat, k: nat)
    requires n <= |items| && ItemsResolve(snapshot, items)
    requires j < |snapshot| && k < n && items[k].productId == snapshot[j].id
    requires forall l :: k < l < n ==> items[l].productId != snapshot[j].id
    ensures StockAfterLines(snapshot, items, n, now)[j] == WithStock(snapshot[j], LineStock(snapshot, items[k]), now)
    decreases n
  {
    if k == n - 1 {
      StockAfterLinesShape(snapshot, items, n - 1, now, j);
    } else {
      StockAfterLinesLastWins(snapshot, items, n - 1, now, j, k);
    }
  }

  /** A product that no line of the sale names comes out of posting unchanged. */
  lemma DecrementedStockUnsold(snapshot: seq<Product>, items: seq<SaleItem>, now: Timestamp, j: nat)
    requires ItemsResolve(snapshot, items) && j < |snapshot| && !InSale(items, snapshot[j].id)
    ensures DecrementedStock(snapshot, items, now)[j] == snapshot[j]
  {
    StockAfterLinesUnsold(snapshot, items, |items|, now, j);
  }

  /**
   * With distinct product ids per line, the product line `k` names ends with
   * the stock it had when posting began minus the line quantity (with no
   * floor: it may go negative) and a fresh `updatedAt`.
   */
  lemma DecrementedStockSold(snapshot: seq<Product>, items: seq<SaleItem>, now: Timestamp, j: nat, k: nat)
    requires ItemsResolve(snapshot, items) && DistinctProductIds(items)
    requires j < |snapshot| && k < |items| && items[k].productId == snapshot[j].id
    ensures DecrementedStock(snapshot, items, now)[j]
              == WithStock(snapshot[j], Lookup(snapshot, snapshot[j].id).stock - items[k].quantity, now)
  {
    assert forall l :: k < l < |items| ==> items[l].productId != snapshot[j].id;
    StockAfterLinesLastWins(snapshot, items, |items|, now, j, k);
  }

  /** With distinct product ids in the store as well, a line of quantity q lowers that product's stock by exactly q. */
  lemma StockLoweredByQuantity(snapshot: seq<Product>, items: seq<SaleItem>, now: Timestamp, j: nat, k: nat)
    requires ItemsResolve(snapshot, items) && DistinctProductIds(items) && ProductIdsDistinct(snapshot)
    requires j < |snapshot| && k < |items| && items[k].productId == snapshot[j].id
    ensures DecrementedStock(snapshot, items, now)[j].stock == snapshot[j].stock - items[k].quantity
  {
    DecrementedStockSold(snapshot, items, now, j, k);
    LookupUnique(snapshot, j);
  }

  /** `if (sale.customerId)` then `customers.find(...)`: the registered customer a sale is credited to. */
  function ResolveCustomer(customers: seq<Customer>, customerId: Option<Id>): (r: Option<Customer>)
    ensures r.Some? ==> r.value in customers && customerId == Some(r.value.id) && r.value.id != ""
    ensures r.None? <==> (customerId.None? || customerId.value == ""
                          || forall i :: 0 <= i < |customers| ==> customers[i].id != customerId.value)
  {
    match customerId
    case None => None
    case Some(cid) =>
      if cid == "" then None
      else
        var r := Find(customers, (c: Customer) => c.id == cid);
        if r.Some? then
          var i := FirstIndex(customers, (c: Customer) => c.id == cid);
          assert customers[i] == r.value;
          r
        else r
  }

  /** A set, non-empty id resolves to the first customer carrying it. */
  lemma ResolveCustomerFirst(customers: seq<Customer>, customerId: Id, k: nat)
    requires customerId != "" && FirstCustomerWith(customers, customerId, k)
    ensures ResolveCustomer(customers, Some(customerId)) == Some(customers[k])
  {
    var j := FirstIndex(customers, (c: Customer) => c.id == customerId);
    assert j <= k;
  }

  /** The customers after crediting `total` to the resolved customer, if any. */
  function CreditCustomer(customers: seq<Customer>, customerId: Option<Id>, total: real): seq<Customer>
  {
    match ResolveCustomer(customers, customerId)
    case None => customers
    case Some(c) => UpdateCustomers(customers, c.id, NoCustomerChanges.(totalPurchases := Some(c.totalPurchases + total)))
  }

  /**
   * With distinct customer ids: the resolved customer's `totalPurchases` rises
   * by exactly `total` and nothing else about any customer changes; when the
   * id is absent, empty or unknown, no customer changes.
   */
  lemma CreditCustomerEffect(customers: seq<Customer>, customerId: Option<Id>, total: real)
    requires CustomerIdsDistinct(customers)
    ensures |CreditCustomer(customers, customerId, total)| == |customers|
    ensures ResolveCustomer(customers, customerId).None? ==> CreditCustomer(customers, customerId, total) == customers
    ensures forall j :: 0 <= j < |customers| ==>
      CreditCustomer(customers, customerId, total)[j]
        == if customerId == Some(customers[j].id) && customers[j].id != ""
           then customers[j].(totalPurchases := customers[j].totalPurchases + total)
           else customers[j]
  {
    var r := ResolveCustomer(customers, customerId);
    if r.Some? {
      var i :| 0 <= i < |customers| && customers[i] == r.value;
      forall j | 0 <= j < |customers| && customers[j].id == r.value.id ensures j == i {
      }
    }
  }

  /** Lifetime spend summed over all customers grows by `total` exactly when the sale resolves to a customer. */
  lemma CreditCustomerTotalSpend(customers: seq<Customer>, customerId: Option<Id>, total: real)
    requires CustomerIdsDistinct(customers)
    ensures SumReal(CreditCustomer(customers, customerId, total), LifetimeSpend)
            == SumReal(customers, LifetimeSpend) + (if ResolveCustomer(customers, customerId).Some? then total else 0.0)
  {
    var r := ResolveCustomer(customers, customerId);
    if r.Some? {
      var c := r.value;
      var i :| 0 <= i < |customers| && customers[i] == c;
      forall j | 0 <= j < |customers| && j != i ensures customers[j].id != c.id {
      }
      var credit := CustomerPatcher(NoCustomerChanges.(totalPurchases := Some(c.totalPurchases + total)));
      assert CreditCustomer(customers, customerId, total) == MapWhere(customers, CustomerIdIs(c.id), credit);
      assert LifetimeSpend(credit(customers[i])) == c.totalPurchases + total;
      SumMapWhereOne(customers, CustomerIdIs(c.id), credit, LifetimeSpend, i);
    }
  }

  function LifetimeSpend(c: Customer): real { c.totalPurchases }

  function SaleTotal(s: Sale): real { s.total }

  /** The sale record `addSale` stores. */
  function SaleOf(draft: SaleDraft, id: Id, documentNumber: string, now: Timestamp): (s: Sale)
    ensures SaleDraftOf(s) == draft && s.id == id && s.documentNumber == documentNumber && s.createdAt == now
  {
    Sale(id, draft.customerId, draft.customerName, draft.items, draft.subtotal, draft.tax, draft.total,
         draft.paymentMethod, draft.documentType, documentNumber, now, draft.status)
  }

  // ---------------------------------------------------------------------------

  class Store {
    var products: seq<Product>
    var customers: seq<Customer>
    var suppliers: seq<Supplier>
    var sales: seq<Sale>
    var purchases: seq<Purchase>

    /** A fresh, empty store. */
    constructor ()
      ensures products == [] && customers == [] && suppliers == [] && sales == [] && purchases == []
    {
      products, customers, suppliers, sales, purchases := [], [], [], [], [];
    }

    method AddProduct(draft: ProductDraft, id: Id, now: Timestamp) returns (p: Product)
      modifies this`products
      ensures ProductDraftOf(p) == draft && p.id == id && p.createdAt == now && p.updatedAt == now
      ensures products == old(products) + [p]
      ensures ProductIdsDistinct(old(products)) && !HasProduct(old(products), id) ==> ProductIdsDistinct(products)
    {
      p := Product(id, draft.name, draft.category, draft.price, draft.stock, draft.minStock, draft.maxStock,
                   draft.supplier, draft.description, draft.barcode, now, now);
      products := products + [p];
    }

    method UpdateProduct(id: Id, u: ProductPatch, now: Timestamp)
      modifies this`products
      ensures products == UpdateProducts(old(products), id, u, now)
    {
      products := UpdateProducts(products, id, u, now);
    }

    method DeleteProduct(id: Id)
      modifies this`products
      ensures products == WithoutProduct(old(products), id)
    {
      products := WithoutProduct(products, id);
    }

    method AddCustomer(draft: CustomerDraft, id: Id, now: Timestamp) returns (c: Customer)
      modifies this`customers
      ensures CustomerDraftOf(c) == draft && c.id == id && c.createdAt == now && c.totalPurchases == 0.0
      ensures customers == old(customers) + [c]
      ensures CustomerIdsDistinct(old(customers)) && (forall i :: 0 <= i < |old(customers)| ==> old(customers)[i].id != id)
              ==> CustomerIdsDistinct(customers)
    {
      c := Customer(id, draft.name, draft.email, draft.phone, draft.address, draft.documentType,
                    draft.documentNumber, now, 0.0);
      customers := customers + [c];
    }

    method UpdateCustomer(id: Id, u: CustomerPatch)
      modifies this`customers
      ensures customers == UpdateCustomers(old(customers), id, u)
    {
      customers := UpdateCustomers(customers, id, u);
    }

    method DeleteCustomer(id: Id)
      modifies this`customers
      ensures customers == WithoutCustomer(old(customers), id)
    {
      customers := WithoutCustomer(customers, id);
    }

    method AddSupplier(draft: SupplierDraft, id: Id, now: Timestamp) returns (s: Supplier)
      modifies this`suppliers
      ensures SupplierDraftOf(s) == draft && s.id == id && s.createdAt == now
      ensures suppliers == old(suppliers) + [s]
    {
      s := Supplier(id, draft.name, draft.email, draft.phone, draft.address, draft.ruc,
                    draft.contactPerson, draft.paymentTerms, now);
      suppliers := suppliers + [s];
    }

    method UpdateSupplier(id: Id, u: SupplierPatch)
      modifies this`suppliers
      ensures suppliers == UpdateSuppliers(old(suppliers), id, u)
    {
      suppliers := UpdateSuppliers(suppliers, id, u);
    }

    /** Products that name the supplier keep the now dangling reference. */
    method DeleteSupplier(id: Id)
      modifies this`suppliers
      ensures suppliers == WithoutSupplier(old(suppliers), id)
    {
      suppliers := WithoutSupplier(suppliers, id);
    }

    method AddPurchase(draft: PurchaseDraft, id: Id) returns (p: Purchase)
      modifies this`purchases
      ensures PurchaseDraftOf(p) == draft && p.id == id
      ensures purchases == old(purchases) + [p]
    {
      p := Purchase(id, draft.supplierId, draft.supplierName, draft.items, draft.subtotal, draft.tax,
                    draft.total, draft.status, draft.orderDate, draft.expectedDate, draft.receivedDate);
      purchases := purchases + [p];
    }

    method UpdatePurchase(id: Id, u: PurchasePatch)
      modifies this`purchases
      ensures purchases == UpdatePurchases(old(purchases), id, u)
    {
      purchases := UpdatePurchases(purchases, id, u);
    }

    /**
     * The stock loop of `addSale`: one `updateProduct` per line, each new
     * level read from the products as they were before the loop. Each
     * `updateProduct` queues a `prev => prev.map(...)` update of the product
     * list; the loop composes them in order and the list is replaced by the
     * result.
     */
    method DecrementStock(items: seq<SaleItem>, now: Timestamp)
      requires ItemsResolve(products, items)
      modifies this`products
      ensures products == DecrementedStock(old(products), items, now)
    {
      var snapshot := products;
      var updated := products;
      for i := 0 to |items|
        invariant updated == StockAfterLines(snapshot, items, i, now)
      {
        var line := items[i];
        StockAfterLinesStep(snapshot, items, i, now);
        var stock := Lookup(snapshot, line.productId).stock - line.quantity;
        StockPatchIsSetStock(updated, line.productId, stock, now);
        updated := UpdateProducts(updated, line.productId, StockPatch(stock), now);
      }
      products := updated;
    }

    /** The customer step of `addSale`: the resolved customer's lifetime spend grows by the sale total. */
    method CreditSale(customerId: Option<Id>, total: real)
      modifies this`customers
      ensures customers == CreditCustomer(old(customers), customerId, total)
    {
      var credited := ResolveCustomer(customers, customerId);
      if credited.Some? {
        var c := credited.value;
        UpdateCustomer(c.id, NoCustomerChanges.(totalPurchases := Some(c.totalPurchases + total)));
      }
    }

    /** The last step of `addSale`: the sale joins the history. */
    method RecordSale(s: Sale)
      modifies this`sales
      ensures sales == old(sales) + [s]
      ensures WellNumbered(old(sales)) && s.documentNumber == NextDocumentNumber(old(sales), s.documentType)
              ==> WellNumbered(sales)
    {
      if WellNumbered(sales) && s.documentNumber == NextDocumentNumber(sales, s.documentType) {
        WellNumberedAppend(sales, s);
      }
      sales := sales + [s];
    }

    /**
     * `addSale`. The number, the stock levels and the customer are read from
     * the collections as they were when the call began.
     */
    method AddSale(draft: SaleDraft, id: Id, now: Timestamp) returns (s: Sale)
      requires ItemsResolve(products, draft.items)
      modifies this`products, this`customers, this`sales
      ensures s == SaleOf(draft, id, NextDocumentNumber(old(sales), draft.documentType), now)
      ensures sales == old(sales) + [s]
      ensures products == DecrementedStock(old(products), draft.items, now)
      ensures customers == CreditCustomer(old(customers), draft.customerId, draft.total)
      ensures WellNumbered(old(sales)) ==> WellNumbered(sales)
    {
      var documentNumber := NextDocumentNumber(sales, draft.documentType);
      s := SaleOf(draft, id, documentNumber, now);

      DecrementStock(draft.items, now);

      CreditSale(draft.customerId, draft.total);

      RecordSale(s);
    }
  }
}
