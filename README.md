# Hardware-store ledger in Dafny

This project models the core of a small point-of-sale and inventory ledger for a hardware store. It has:

- five in-memory collections: products, customers, suppliers, sales and supplier purchase orders;
- the store operations that add, update and delete records;
- posting a sale, which numbers the sale, lowers stock, credits the customer and appends the sale;
- the cart of the sale form;
- the figures the dashboard and the list screens derive from the collections.

Modules, one per file:

- `Types` (`types.dfy`): the records and their enumerations.
  - Payment methods: cash, card, bank transfer, Yape, Plin.
  - Receipt (boleta) or invoice (factura).
  - Sale status: completed, pending, cancelled.
  - Identity document: DNI or RUC.
  - Purchase order status: pending, received, cancelled.
  - Optional fields are `Option`s: a sale's customer id, a product's barcode, and a purchase's expected and received dates.
  - A sale line stores its `total` next to its quantity and unit price; the record does not derive it.
- `Seqs` (`seqs.dfy`): the list operations the code relies on, each with the property it is used for.
  - `filter`, `map` over matching records, `find`/`findIndex`, `reduce` sums.
  - A stable descending `sort` followed by `slice`.
  - `Set` dedupe.
  - Substring `includes`.
- `DocumentNumbers` (`docnumbers.dfy`): sale numbers. A series prefix (`B001-` or `F001-`) is followed by the count of earlier sales of the same type plus one, zero-padded to eight digits.
- `Store` (`store.dfy`): the store as a class with one `seq` field per collection.
  - Every add, update and delete method changes only its own collection. `AddSale` changes three: products, customers and sales.
  - Each method is specified by a function of the old contents: append, update matching ids, filter the id out.
  - `AddSale` composes four steps: number, stock, customer, append.
- `SaleForm` (`saleform.dfy`): the cart and form state as a class.
  - The cart operations are specified by pure functions, and the cart invariant is proved to be preserved.
  - The subtotal, the 18% IGV sales tax and the total.
  - JavaScript `trim`.
  - The submit guards, and the hand-off to `AddSale`.
- `Dashboard`, `Customers`, `Suppliers`, `Products` (`dashboard.dfy`, `customers.dfy`, `suppliers.dfy`, `products.dfy`): the derived views, as pure functions with their lemmas.

Conventions:

- Amounts are exact `real`s.
- Unit counts are `int`s.
- Instants are opaque `int` timestamps.
- Fresh ids and the current time are parameters of the operations that create or stamp records.
- `toLowerCase` is a function parameter `lower`.

Behaviour as the code has it, kept in the model:

- **Stock is written, not subtracted.** Posting reads stock from the product list as it was when posting began, and writes `stock - quantity` for each line in order. If two lines name the same product, the last line's level wins and the quantities are not added up (`Store.StockAfterLinesLastWins`). The sale form never produces such a cart, because its lines have distinct product ids (`SaleForm.CartAddPreserves`). When the lines of the sale have distinct product ids and so do the products of the store, each sold product loses exactly its line's quantity, with no floor (`Store.StockLoweredByQuantity`).
- **Units sold count only the first matching line.** The dashboard's units sold take, in each sale, the first line naming the product. A sale that names a product twice contributes only its first line. `Dashboard.TotalSoldCountsAllLines` shows that this equals the count over all lines when each sale names every product at most once.
- **Every sale is credited.** `addSale` credits the sale total to a resolved customer whatever the sale's status; pending and cancelled sales count too (`Store.CreditCustomerEffect`).
- **Duplicate records.** Ids are not guaranteed unique, so the filtering views are stated with multiplicities: each kept record appears as often as in the input.
- **Falsy values.** A customer id of `""` is falsy, so the sale is not credited to anyone. `customer?.name || ''` and `?.name || 'N/A'` fall back when the name is empty as well as when the record is missing.

## Model

| member | source | states |
|---|---|---|
| Store.Store.constructor | src/hooks/useStore.ts:5-9 | all five collections start empty |
| Store.Store.AddProduct | src/hooks/useStore.ts:13-22 | appends exactly one product carrying the draft, the fresh id, and creation and update times equal to now; earlier products are unchanged; distinct ids stay distinct when the id is fresh |
| Store.Store.UpdateProduct | src/hooks/useStore.ts:24-30 | replaces the list by `UpdateProducts` of the old list, changing nothing else in the store |
| Store.UpdateProducts | src/hooks/useStore.ts:25-29 | same length and order; each product with the id gets the patch merged in and `updatedAt` set to now; every other product is unchanged |
| Store.ApplyProductPatch | src/hooks/useStore.ts:27 | the patched product: each field the patch sets, the old value elsewhere, `updatedAt` now; characterised pointwise by `UpdateProducts` and `UpdatedProductStamped` |
| Store.UpdatedProductStamped | src/hooks/useStore.ts:27 | an updated product always carries the new time, keeps its creation time unless the patch sets one, and keeps its id unless the patch sets one |
| Store.UpdateAbsentProduct | src/hooks/useStore.ts:24-30 | an update naming an id no product has leaves the list as it was |
| Store.Store.DeleteProduct | src/hooks/useStore.ts:32-34 | replaces the list by `WithoutProduct` of the old list |
| Store.WithoutProduct | src/hooks/useStore.ts:33 | no product with the id remains; every other product remains as often as before, in its original order |
| Store.Store.AddCustomer | src/hooks/useStore.ts:36-45 | appends exactly one customer with the draft, the fresh id, the creation time and lifetime spend 0; distinct ids stay distinct when the id is fresh |
| Store.Store.UpdateCustomer | src/hooks/useStore.ts:47-51 | replaces the list by `UpdateCustomers` of the old list |
| Store.UpdateCustomers | src/hooks/useStore.ts:48-50 | same length and order; matching customers get the patch merged in, with no time stamp; others unchanged |
| Store.ApplyCustomerPatch | src/hooks/useStore.ts:49 | the patched customer: each field the patch sets, the old value elsewhere; characterised pointwise by `UpdateCustomers` |
| Store.UpdateAbsentCustomer | src/hooks/useStore.ts:47-51 | an update of an id no customer has is a no-op |
| Store.Store.DeleteCustomer | src/hooks/useStore.ts:53-55 | replaces the list by `WithoutCustomer` of the old list |
| Store.WithoutCustomer | src/hooks/useStore.ts:54 | exactly the customers with the id are gone; the rest keep their order and their multiplicity |
| Store.Store.AddSupplier | src/hooks/useStore.ts:57-65 | appends exactly one supplier with the draft, the fresh id and the creation time |
| Store.Store.UpdateSupplier | src/hooks/useStore.ts:67-71 | replaces the list by `UpdateSuppliers` of the old list |
| Store.UpdateSuppliers | src/hooks/useStore.ts:68-70 | same length and order; matching suppliers get the patch; others unchanged |
| Store.ApplySupplierPatch | src/hooks/useStore.ts:69 | the patched supplier: each field the patch sets, the old value elsewhere; characterised pointwise by `UpdateSuppliers` |
| Store.UpdateAbsentSupplier | src/hooks/useStore.ts:67-71 | an update of an unknown supplier id is a no-op |
| Store.Store.DeleteSupplier | src/hooks/useStore.ts:73-75 | replaces the supplier list by `WithoutSupplier` of the old list and may change nothing else, so products keep a now dangling supplier id |
| Store.WithoutSupplier | src/hooks/useStore.ts:74 | exactly the suppliers with the id are gone; the rest keep their order and their multiplicity |
| Store.Store.AddPurchase | src/hooks/useStore.ts:110-117 | appends exactly one purchase order with the draft and the fresh id |
| Store.Store.UpdatePurchase | src/hooks/useStore.ts:119-123 | replaces the list by `UpdatePurchases` of the old list |
| Store.UpdatePurchases | src/hooks/useStore.ts:120-122 | same length and order; matching orders get the patch; others unchanged |
| Store.ApplyPurchasePatch | src/hooks/useStore.ts:121 | the patched order: each field the patch sets, the old value elsewhere; characterised pointwise by `UpdatePurchases` |
| Store.UpdateAbsentPurchase | src/hooks/useStore.ts:119-123 | an update of an unknown order id is a no-op |
| Store.LowStockProducts | src/hooks/useStore.ts:125-127 | every reported product is in the store and at or below its minimum; every such product is reported as often as it occurs; store order is kept |
| Store.AboveMinimumNotReported | src/hooks/useStore.ts:126 | a product above its minimum is never reported |
| Store.Lookup | src/hooks/useStore.ts:92 | the product `find` returns is in the list and has the id |
| Store.LookupFirst | src/hooks/useStore.ts:92 | the lookup returns the first product with the id, whatever products with the same id follow |
| Store.LookupUnique | src/hooks/useStore.ts:92 | with distinct ids, the lookup returns the product at the position of that id |
| Store.Store.AddSale | src/hooks/useStore.ts:77-108 | appends one sale echoing the draft with the fresh id, now, and the next number of its type; products are the stock-decremented old products; customers are the credited old customers; a well-numbered history stays well numbered |
| Store.SaleOf | src/hooks/useStore.ts:82-87 | the stored sale carries exactly the draft's fields, the fresh id, the document number and the creation time |
| Store.Store.DecrementStock | src/hooks/useStore.ts:89-94 | the loop leaves the products equal to `DecrementedStock` of the list as posting found it |
| Store.StockPatchIsSetStock | src/hooks/useStore.ts:91-93 | `updateProduct(id, { stock })` changes only stock and `updatedAt` of the products with the id |
| Store.StockAfterLines | src/hooks/useStore.ts:90-94 | the products after the first n stock updates, each level taken from the snapshot; same length as the snapshot; characterised by the `StockAfterLines…` lemmas below |
| Store.DecrementedStock | src/hooks/useStore.ts:89-94 | the products after all lines; same length as the snapshot; characterised by `DecrementedStockUnsold`, `DecrementedStockSold` and `StockLoweredByQuantity` |
| Store.StockAfterLinesStep | src/hooks/useStore.ts:90-94 | each loop step applies one stock update to the result of the previous steps |
| Store.StockAfterLinesUnsold | src/hooks/useStore.ts:90-94 | a product no processed line names is unchanged |
| Store.StockAfterLinesShape | src/hooks/useStore.ts:90-94 | the loop changes no field of any product except stock and `updatedAt` |
| Store.StockAfterLinesLastWins | src/hooks/useStore.ts:90-94 | the last line naming a product sets its stock to the snapshot level minus that line's quantity, overwriting earlier lines |
| Store.DecrementedStockUnsold | src/hooks/useStore.ts:90-94 | a product not in the sale comes out of posting unchanged |
| Store.DecrementedStockSold | src/hooks/useStore.ts:90-94 | with distinct line ids, a sold product ends with the snapshot stock minus the line quantity and a fresh `updatedAt`, otherwise unchanged |
| Store.StockLoweredByQuantity | src/hooks/useStore.ts:92 | with distinct ids in the cart and in the store, stock drops by exactly the line quantity, with no floor |
| Store.Store.CreditSale | src/hooks/useStore.ts:96-104 | the customers become `CreditCustomer` of the old customers |
| Store.ResolveCustomer | src/hooks/useStore.ts:97-99 | a customer is found only for a set, non-empty id that some customer has; the found customer is in the list and has that id |
| Store.ResolveCustomerFirst | src/hooks/useStore.ts:97-98 | a set, non-empty id resolves to the first customer carrying it |
| Store.CreditCustomer | src/hooks/useStore.ts:96-104 | the customers after crediting the sale total to the resolved customer; characterised by `CreditCustomerEffect` and `CreditCustomerTotalSpend` |
| Store.CreditCustomerEffect | src/hooks/useStore.ts:97-104 | with distinct ids: the customer with the sale's id gets `totalPurchases + total`; every other customer, and every customer when the id is absent, empty or unknown, is unchanged |
| Store.CreditCustomerTotalSpend | src/hooks/useStore.ts:100-102 | lifetime spend summed over all customers rises by the sale total exactly when the sale resolves to a customer |
| Store.Store.RecordSale | src/hooks/useStore.ts:106 | the sale is appended last; a well-numbered history stays well numbered when the sale has the next number of its type |
| DocumentNumbers.Decimal | src/hooks/useStore.ts:79 | `toString()` of a natural number is a non-empty string of digits |
| DocumentNumbers.DecimalRoundTrip | src/hooks/useStore.ts:79 | reading the decimal digits back gives the number |
| DocumentNumbers.PadStart | src/hooks/useStore.ts:79 | `padStart` output has the width, or the original length when the string is longer; it ends with the input, and everything before the input is `'0'` |
| DocumentNumbers.LeadingZeros | src/hooks/useStore.ts:79 | zero padding does not change the value of the digits |
| DocumentNumbers.DocumentNumber | src/hooks/useStore.ts:78-80 | the number begins with the series prefix of its type and continues in digits only |
| DocumentNumbers.CountOfType | src/hooks/useStore.ts:79 | the number of earlier sales of the type; characterised by `CountOfTypeAppend` |
| DocumentNumbers.NextDocumentNumber | src/hooks/useStore.ts:78-80 | the number of the next sale of a type; characterised by `SameSeriesAdvances`, `OtherSeriesUnaffected`, `WellNumberedAppend` and `FirstNumbers` |
| DocumentNumbers.DocumentNumberWidth | src/hooks/useStore.ts:79 | below 10^8 the number is exactly 13 characters long |
| DocumentNumbers.ParseDocumentNumberRoundTrip | src/hooks/useStore.ts:78-80 | the type and the sequence number can be read back from the document number |
| DocumentNumbers.DocumentNumberInjective | src/hooks/useStore.ts:78-80 | distinct (type, sequence number) pairs give distinct document numbers |
| DocumentNumbers.OtherSeriesUnaffected | src/hooks/useStore.ts:78-80 | posting a sale of one type leaves the next number of the other type unchanged |
| DocumentNumbers.SameSeriesAdvances | src/hooks/useStore.ts:78-80 | posting a sale of a type advances that type's sequence number by one |
| DocumentNumbers.CountOfTypeAppend | src/hooks/useStore.ts:79 | the same-type count grows by one exactly when the appended sale has that type |
| DocumentNumbers.WellNumberedAppend | src/hooks/useStore.ts:78-87 | appending a sale with the next number of its type keeps every sale numbered by its position in its series |
| DocumentNumbers.WellNumberedDistinct | src/hooks/useStore.ts:78-80 | in a history built by sequential posting, no two sales share a document number |
| DocumentNumbers.FirstNumbers | src/hooks/useStore.ts:78-80 | the first receipt is `B001-00000001` and the first invoice `F001-00000001` |
| SaleForm.SaleFormState.constructor | src/components/SaleForm.tsx:14-23 | a receipt paid in cash, no customer, an empty cart, no product selected, quantity 1; the cart invariant holds |
| SaleForm.SaleFormState.HandleCustomerChange | src/components/SaleForm.tsx:25-32 | records the chosen id and the customer's name, leaving the rest of the form as it was |
| SaleForm.CustomerNameFor | src/components/SaleForm.tsx:26-30 | an unknown id gives the empty name; otherwise the name of the first customer with the id |
| SaleForm.SaleFormState.EnterQuantity | src/components/SaleForm.tsx:223 | the quantity becomes `QuantityEntry` of the parsed input |
| SaleForm.QuantityEntry | src/components/SaleForm.tsx:223 | never zero; an unparsable or zero entry gives 1, any other entry is kept, negative ones included |
| SaleForm.Picked | src/components/SaleForm.tsx:35-38 | no product when the selection is empty or names no product; otherwise a product of the list with that id |
| SaleForm.PickedFirst | src/components/SaleForm.tsx:37 | a non-empty selection picks the first product with that id |
| SaleForm.SaleFormState.AddItem | src/components/SaleForm.tsx:34-61 | with no usable selection nothing changes; otherwise the cart becomes `CartAdd` of the old cart, the selection is cleared and the quantity is reset to 1; the invariant is kept |
| SaleForm.CartAdd | src/components/SaleForm.tsx:40-57 | merge into the product's line or append a new one; characterised by `CartAddMerges`, `CartAddAppends` and `CartAddPreserves` |
| SaleForm.CartAddMerges | src/components/SaleForm.tsx:40-47 | a product already in the cart: same line count; its line gets `quantity + q` and `total = (quantity + q) × unitPrice`, keeping its own unit price; other lines unchanged |
| SaleForm.CartAddAppends | src/components/SaleForm.tsx:48-56 | a new product: exactly one line appended, with the product's name and current price and total `q × price` |
| SaleForm.CartAddPreserves | src/components/SaleForm.tsx:40-57 | adding keeps product ids distinct and every line's total equal to its quantity times its unit price |
| SaleForm.SaleFormState.RemoveItem | src/components/SaleForm.tsx:63-65 | the cart becomes `CartRemove` of the old cart; the invariant is kept |
| SaleForm.CartRemove | src/components/SaleForm.tsx:64 | the cart without that product's lines; characterised by `CartRemoveEffect` and `CartRemovePreserves` |
| SaleForm.CartRemoveEffect | src/components/SaleForm.tsx:64 | exactly the lines of that product are dropped; the rest are kept, in order and as often as before |
| SaleForm.CartRemovePreserves | src/components/SaleForm.tsx:64 | removing keeps the cart invariant |
| SaleForm.SaleFormState.UpdateItemQuantity | src/components/SaleForm.tsx:67-78 | the cart becomes `CartSetQuantity` of the old cart; the invariant is kept |
| SaleForm.CartSetQuantity | src/components/SaleForm.tsx:67-78 | removal at zero or less, otherwise requantify the line; characterised by `CartSetQuantityEffect` and `CartSetQuantityPreserves` |
| SaleForm.CartSetQuantityEffect | src/components/SaleForm.tsx:67-78 | a quantity of zero or less removes the line; otherwise that line gets the quantity and `quantity × unitPrice`, and every other line is untouched |
| SaleForm.CartSetQuantityPreserves | src/components/SaleForm.tsx:67-78 | setting a quantity keeps the cart invariant |
| SaleForm.Subtotal | src/components/SaleForm.tsx:80 | the sum of the stored line totals; characterised by `SubtotalOfConsistentCart` and the `Cart…Subtotal…` lemmas |
| SaleForm.Tax | src/components/SaleForm.tsx:81 | 18% of the subtotal; characterised by `TotalIsGrossedUp` |
| SaleForm.Total | src/components/SaleForm.tsx:82 | subtotal plus tax; characterised by `TotalIsGrossedUp` |
| SaleForm.TotalIsGrossedUp | src/components/SaleForm.tsx:80-82 | total = subtotal × 1.18; on a non-negative subtotal, tax and total are non-negative and the tax does not exceed the total |
| SaleForm.SubtotalOfConsistentCart | src/components/SaleForm.tsx:80 | in a consistent cart the sum of the stored line totals is the sum of quantity × unit price |
| SaleForm.CartAddSubtotalMerged | src/components/SaleForm.tsx:40-47 | merging q units raises the subtotal by q times the line's unit price |
| SaleForm.MergedSubtotal | src/components/SaleForm.tsx:43-46 | rewriting the only matching line with q more units raises the sum of totals by q times its unit price |
| SaleForm.CartAddSubtotalNew | src/components/SaleForm.tsx:48-56 | a new line raises the subtotal by q times the product's price |
| SaleForm.CartRemoveSubtotal | src/components/SaleForm.tsx:63-65 | removing a line lowers the subtotal by that line's total |
| SaleForm.TrimStart | src/components/SaleForm.tsx:92 | the result is a suffix of the input that starts with a non-space character or is empty, and everything removed is white space |
| SaleForm.TrimEnd | src/components/SaleForm.tsx:92 | the result is a prefix of the input that ends with a non-space character or is empty, and everything removed is white space |
| SaleForm.Trim | src/components/SaleForm.tsx:92 | `trim()`: both ends stripped of white space; characterised by `TrimStart`, `TrimEnd` and `TrimEmptyIffBlank` |
| SaleForm.TrimStartBlank | src/components/SaleForm.tsx:92 | trimming the start gives the empty string exactly when every character is white space |
| SaleForm.TrimEndBlank | src/components/SaleForm.tsx:92 | trimming the end gives the empty string exactly when every character is white space |
| SaleForm.TrimEmptyIffBlank | src/components/SaleForm.tsx:92 | `trim()` gives the empty string exactly when the name is empty or all white space |
| SaleForm.Submit | src/components/SaleForm.tsx:87-107 | an empty cart stops submission; otherwise a blank name stops it; otherwise the posted draft carries the cart, the name, the form's payment method and document type, an empty customer id turned into none, status completed, the cart's subtotal, tax = subtotal × 0.18 and total = subtotal × 1.18 |
| SaleForm.SaleFormState.HandleSubmit | src/components/SaleForm.tsx:84-110 | a stopped submission leaves the store untouched; a posted one appends the numbered sale, decrements stock and credits the customer as `AddSale` does |
| SaleForm.FirstSaleExample | src/hooks/useStore.ts:77-108 | three units at price 10 from stock 5 on an empty history: number `B001-00000001`, subtotal 30, tax 5.40, total 35.40, stock 2, now low |
| Dashboard.TotalRevenueAppend | src/components/Dashboard.tsx:9 | every appended sale adds its total to revenue, whatever its status |
| Dashboard.TotalRevenue | src/components/Dashboard.tsx:9 | the sum of all sale totals; characterised by `TotalRevenueAppend` |
| Dashboard.QuantityIn | src/components/Dashboard.tsx:20-21 | the quantity of the first line naming the product, or 0 when no line does |
| Dashboard.FirstLineIsAllLines | src/components/Dashboard.tsx:20-21 | when a sale names each product at most once, the first line's quantity is the sum over all its lines for that product |
| Dashboard.TotalSoldAppend | src/components/Dashboard.tsx:19-22 | a new sale adds its first matching line's quantity to that product's units sold |
| Dashboard.TotalSold | src/components/Dashboard.tsx:19-22 | units of a product over the history, first matching line per sale; characterised by `TotalSoldAppend` and `TotalSoldCountsAllLines` |
| Dashboard.TopProducts | src/components/Dashboard.tsx:16-25 | the five best sellers; characterised by `TopProductsShape`, `TopProductsLeftOut` and `TopProductsStable` |
| Dashboard.TotalSoldCountsAllLines | src/components/Dashboard.tsx:19-22 | over a history whose sales name each product at most once, units sold equal the sum of all matching line quantities |
| Dashboard.TopProductsShape | src/components/Dashboard.tsx:16-25 | `min(5, n)` entries ordered by non-increasing units sold, each a product of the store carrying its own units sold |
| Dashboard.TopProductsLeftOut | src/components/Dashboard.tsx:24-25 | a product left out sold no more than any product listed |
| Dashboard.TopProductsStable | src/components/Dashboard.tsx:24 | among equal units sold, entries keep store order and only the first ones make the cut |
| Dashboard.RecentSales | src/components/Dashboard.tsx:27-29 | the five newest sales; characterised by `RecentSalesShape` |
| Dashboard.RecentSalesShape | src/components/Dashboard.tsx:27-29 | `min(5, n)` sales from the history, newest first, none older than a sale left out |
| Dashboard.LowStockAlertOf | src/components/Dashboard.tsx:94-115 | the alert box contents; characterised by `LowStockAlertAccounts` |
| Dashboard.LowStockAlertAccounts | src/components/Dashboard.tsx:94-115 | the alert appears exactly when some product is low; it shows the count of low products and the first (up to) three of them in store order; "more" appears only above three, and then reads count − 3 |
| Dashboard.StatsOf | src/components/Dashboard.tsx:31-60 | the tiles show total revenue, a today count no larger than the history, the number of products and the number of customers |
| Customers.FilteredCustomersExact | src/components/Customers.tsx:13-17 | exactly the customers whose name or email contains the term ignoring case, or whose document number contains it as typed, in list order and with their multiplicity |
| Customers.FilteredCustomers | src/components/Customers.tsx:13-17 | the search result; characterised by `FilteredCustomersExact` and `EmptyTermKeepsAllCustomers` |
| Customers.EmptyTermKeepsAllCustomers | src/components/Customers.tsx:13-17 | an empty search term keeps every customer |
| Customers.CustomerPurchasesExact | src/components/Customers.tsx:35-37 | exactly the sales carrying the customer's id, in history order and with their multiplicity |
| Customers.CustomerPurchases | src/components/Customers.tsx:35-37 | the customer's sales; characterised by `CustomerPurchasesExact` and `PurchasesAfterSale` |
| Customers.PurchaseCount | src/components/Customers.tsx:122 | the number of the customer's sales; characterised by `PurchasesAfterSale` |
| Customers.PurchasesTotal | src/components/Customers.tsx:69-70 | the sum of the customer's sale totals; characterised by `PurchasesAfterSale` and `PostingKeepsLedgersAgreeing` |
| Customers.PurchasesAfterSale | src/components/Customers.tsx:35-37 | a new sale joins the history, count and total of exactly the customer it names |
| Customers.PostingKeepsLedgersAgreeing | src/components/Customers.tsx:69-70 | with distinct, non-empty customer ids, posting keeps the stored lifetime spend equal to the total recomputed from the history |
| Customers.RegisteringKeepsLedgersAgreeing | src/components/Customers.tsx:69-70 | a new customer with zero spend, under an id no sale carries, keeps the two totals in step |
| Suppliers.FilteredSuppliersExact | src/components/Suppliers.tsx:13-17 | exactly the suppliers whose name or email contains the term ignoring case, or whose RUC contains it, in list order and with their multiplicity |
| Suppliers.FilteredSuppliers | src/components/Suppliers.tsx:13-17 | the search result; characterised by `FilteredSuppliersExact` and `EmptyTermKeepsAllSuppliers` |
| Suppliers.EmptyTermKeepsAllSuppliers | src/components/Suppliers.tsx:13-17 | an empty term keeps every supplier |
| Suppliers.SupplierProductsExact | src/components/Suppliers.tsx:35-37 | exactly the products naming the supplier, in store order and with their multiplicity |
| Suppliers.SupplierProducts | src/components/Suppliers.tsx:35-37 | the products naming the supplier; characterised by `SupplierProductsExact` |
| Suppliers.SupplierProductCount | src/components/Suppliers.tsx:127 | how many products name the supplier; characterised by `SupplierProductCountAfterAdd` |
| Suppliers.SupplierProductCountAfterAdd | src/components/Suppliers.tsx:127 | adding a product raises the count of exactly the supplier it names |
| Products.CategoriesExact | src/components/Products.tsx:14 | every product's category appears exactly once, in order of first appearance, and nothing else appears |
| Products.Categories | src/components/Products.tsx:14 | the distinct categories; characterised by `CategoriesExact` |
| Products.FilteredProductsExact | src/components/Products.tsx:16-21 | exactly the products whose name or description contains the term ignoring case and whose category matches the filter, in store order and with their multiplicity |
| Products.FilteredProducts | src/components/Products.tsx:16-21 | the filtered list; characterised by `FilteredProductsExact`, `NoFilterKeepsAllProducts` and `CategoryFilterSelects` |
| Products.NoFilterKeepsAllProducts | src/components/Products.tsx:16-21 | no term and no category keep every product |
| Products.CategoryFilterSelects | src/components/Products.tsx:19 | a set category filter keeps only that category |
| Products.MarkerMatchesLowStockList | src/components/Products.tsx:88 | the marker is shown on exactly the products the low-stock query reports |
| Products.StockTierOf | src/components/Products.tsx:106-111 | the colour of the stock figure; characterised by `StockTierBounds` and `RedTierIsMarked` |
| Products.StockTierBounds | src/components/Products.tsx:106-111 | red exactly at or below the minimum, amber above it up to 1.5 times the minimum (2·stock ≤ 3·min), green beyond |
| Products.RedTierIsMarked | src/components/Products.tsx:106-111 | a red stock figure and the low-stock marker go together |
| Products.SupplierLabel | src/components/Products.tsx:127 | `N/A` when no supplier has the product's supplier id, or when the first supplier that has it has an empty name; otherwise that supplier's name |
| Products.DeletedSupplierShowsNA | src/components/Products.tsx:127 | after its supplier is deleted, a product shows `N/A` |

## Left out

- Persistence through `useLocalStorage`: the collections are plain in-memory sequences, and the hook file is not part of this model.
- `generateId`: a random base-36 string. Ids are parameters. Nothing in the code makes them unique, so lemmas that need distinct ids take that as a hypothesis.
- Wall-clock time: `new Date()` becomes a `now` parameter. The dashboard's "today" test (`toDateString`) is a predicate parameter.
- Floating-point `number` arithmetic, `toFixed` and `toLocaleString`: amounts are exact reals, so no rounding is modelled.
- `toLowerCase` is an uninterpreted function parameter; Unicode case mapping is not modelled.
- Patches merge only fields that are present. A patch that sets an optional field explicitly to `undefined` is modelled only for the optional fields (product barcode; purchase expected and received dates).
- React scheduling: each setter's queued `prev => …` update is applied in call order, to the state the handler started from. Interleavings with other events are not modelled.
- The stock loop: the `updateProduct` calls are accumulated in a local list, and the product list is replaced once at the end. This is the same composition of the queued updates.
- `recentSales` sorts the shared `sales` array in place; the model returns a sorted copy and leaves the stored history unchanged.
- `window.confirm` before deletes, `alert` messages, `onClose`, JSX rendering, modal and tab state.
- The inline setters for the customer name, document type, payment method and product selection are plain field assignments of the form class.
- `parseInt` and `parseFloat` themselves: the form takes the already parsed value (`Option<int>` for the quantity).
- The product, customer and supplier edit forms, the sales list screen and the sample-data seeding are not part of this model.
- `Store.Store.AddSale`: the model requires every line to name a product of the store. The code dereferences `find(...)!` and would throw, which the model does not represent.
- `SaleForm.SaleFormState.HandleSubmit`: the model passes the store as a parameter and posts to it. In the code the form holds its own hook instance, and that instance's sharing with other screens goes through browser storage, which is not modelled.
