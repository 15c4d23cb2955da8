/**
 * The sale form: a cart of sale lines built up by adding products, removing
 * lines and changing quantities; the amounts derived from the cart; and the
 * submit step, which checks the cart and the customer name and then posts
 * the sale to the store.
 *
 * The cart keeps two invariants: no two lines name the same product, and
 * every line's total is its quantity times its unit price.
 */
module SaleForm {
  import opened Types
  import opened Seqs
  import opened DocumentNumbers
  import opened Store

  // ---------------------------------------------------------------------------
  // Cart lines.

  function ProductIdOf(item: SaleItem): Id { item.productId }

  /** A line after `q` more units, priced at the line's own unit price. */
  function Merged(q: int): SaleItem -> SaleItem {
    (item: SaleItem) => item.(quantity := item.quantity + q, total := (item.quantity + q) as real * item.unitPrice)
  }

  /** A line set to `q` units, priced at the line's own unit price. */
  function Requantified(q: int): SaleItem -> SaleItem {
    (item: SaleItem) => item.(quantity := q, total := q as real * item.unitPrice)
  }

  /** A new line for `q` units of `p` at the product's current price. */
  function NewLine(p: Product, q: int): SaleItem {
    SaleItem(p.id, p.name, q, p.price, q as real * p.price)
  }

  /** `addItem` on the cart: merge into the line of `p` if there is one, else append a line. */
  function CartAdd(items: seq<SaleItem>, p: Product, q: int): seq<SaleItem> {
    if Find(items, LineIs(p.id)).Some? then MapWhere(items, LineIs(p.id), Merged(q))
    else items + [NewLine(p, q)]
  }

  /** `removeItem`: drop the lines of the product. */
  function CartRemove(items: seq<SaleItem>, id: Id): seq<SaleItem> {
    Filter(items, Not(LineIs(id)))
  }

  /** `updateItemQuantity`: a quantity of zero or less removes the line. */
  function CartSetQuantity(items: seq<SaleItem>, id: Id, q: int): seq<SaleItem> {
    if q <= 0 then CartRemove(items, id) else MapWhere(items, LineIs(id), Requantified(q))
  }

  predicate LineConsistent(item: SaleItem) { item.total == item.quantity as real * item.unitPrice }

  predicate CartInvariant(items: seq<SaleItem>) {
    DistinctProductIds(items) && forall i :: 0 <= i < |items| ==> LineConsistent(items[i])
  }

  lemma DistinctProductIdsBy(items: seq<SaleItem>)
    ensures DistinctProductIds(items) <==> DistinctBy(items, ProductIdOf)
  {
  }

  /** Adding a product already in the cart merges into its line; the line count is unchanged. */
  lemma CartAddMerges(items: seq<SaleItem>, p: Product, q: int, k: nat)
    requires k < |items| && items[k].productId == p.id
    ensures |CartAdd(items, p, q)| == |items|
    ensures forall i :: 0 <= i < |items| ==>
      CartAdd(items, p, q)[i]
        == if items[i].productId == p.id
           then items[i].(quantity := items[i].quantity + q, total := (items[i].quantity + q) as real * items[i].unitPrice)
           else items[i]
  {
    assert Find(items, LineIs(p.id)).Some?;
  }

  /** Adding a product not in the cart appends one line at the product's price. */
  lemma CartAddAppends(items: seq<SaleItem>, p: Product, q: int)
    requires forall i :: 0 <= i < |items| ==> items[i].productId != p.id
    ensures CartAdd(items, p, q) == items + [SaleItem(p.id, p.name, q, p.price, q as real * p.price)]
  {
    assert Find(items, LineIs(p.id)).None?;
    assert CartAdd(items, p, q) == items + [NewLine(p, q)];
    assert NewLine(p, q) == SaleItem(p.id, p.name, q, p.price, q as real * p.price);
  }

  lemma CartAddPreserves(items: seq<SaleItem>, p: Product, q: int)
    requires CartInvariant(items)
    ensures CartInvariant(CartAdd(items, p, q))
  {
    var r := CartAdd(items, p, q);
    if Find(items, LineIs(p.id)).Some? {
      assert forall i :: 0 <= i < |r| ==> r[i].productId == items[i].productId;
    } else {
      assert forall i :: 0 <= i < |items| ==> r[i] == items[i];
    }
  }

  /** Removing drops exactly the lines of the product and keeps the others in order. */
  lemma CartRemoveEffect(items: seq<SaleItem>, id: Id)
    ensures forall i :: 0 <= i < |CartRemove(items, id)| ==> CartRemove(items, id)[i].productId != id
    ensures forall i :: 0 <= i < |items| && items[i].productId != id ==> items[i] in CartRemove(items, id)
    ensures IsSubsequence(CartRemove(items, id), items)
    ensures forall x :: multiset(CartRemove(items, id))[x] == if x.productId != id then multiset(items)[x] else 0
  {
    FilterMultiplicity(items, Not(LineIs(id)));
    FilterMembers(items, Not(LineIs(id)));
    FilterOrder(items, Not(LineIs(id)));
  }

  lemma CartRemovePreserves(items: seq<SaleItem>, id: Id)
    requires CartInvariant(items)
    ensures CartInvariant(CartRemove(items, id))
  {
    var r := CartRemove(items, id);
    DistinctProductIdsBy(items);
    FilterDistinctBy(items, Not(LineIs(id)), ProductIdOf);
    DistinctProductIdsBy(r);
    FilterMembers(items, Not(LineIs(id)));
  }

  /** A positive quantity rewrites that product's line only; zero or less removes it. */
  lemma CartSetQuantityEffect(items: seq<SaleItem>, id: Id, q: int)
    ensures q <= 0 ==> CartSetQuantity(items, id, q) == CartRemove(items, id)
    ensures q > 0 ==> |CartSetQuantity(items, id, q)| == |items|
    ensures q > 0 ==> forall i :: 0 <= i < |items| ==>
      CartSetQuantity(items, id, q)[i]
        == if items[i].productId == id then items[i].(quantity := q, total := q as real * items[i].unitPrice) else items[i]
  {
  }

  lemma CartSetQuantityPreserves(items: seq<SaleItem>, id: Id, q: int)
    requires CartInvariant(items)
    ensures CartInvariant(CartSetQuantity(items, id, q))
  {
    if q <= 0 {
      CartRemovePreserves(items, id);
    } else {
      var r := CartSetQuantity(items, id, q);
      assert forall i :: 0 <= i < |r| ==> r[i].productId == items[i].productId;
    }
  }

  // ---------------------------------------------------------------------------
  // Amounts.

  function LineTotal(item: SaleItem): real { item.total }

  function LineValue(item: SaleItem): real { item.quantity as real * item.unitPrice }

  /** The sum of the stored line totals. */
  function Subtotal(items: seq<SaleItem>): real { SumReal(items, LineTotal) }

  /** IGV, the 18% sales tax. */
  const TaxRate: real := 0.18

  function Tax(subtotal: real): real { subtotal * TaxRate }

  function Total(subtotal: real): real { subtotal + Tax(subtotal) }

  /** The total is the subtotal grossed up by 18%; tax and total never fall below zero on a non-negative subtotal. */
  lemma TotalIsGrossedUp(subtotal: real)
    ensures Total(subtotal) == subtotal * 1.18
    ensures subtotal >= 0.0 ==> 0.0 <= Tax(subtotal) <= Total(subtotal)
  {
  }

  /** In a consistent cart the subtotal is the sum of quantity times unit price. */
  lemma {:induction false} SubtotalOfConsistentCart(items: seq<SaleItem>)
    requires forall i :: 0 <= i < |items| ==> LineConsistent(items[i])
    ensures Subtotal(items) == SumReal(items, LineValue)
    decreases |items|
  {
    if items != [] {
      SubtotalOfConsistentCart(items[..|items| - 1]);
    }
  }

  /** Merging `q` more units into a line raises the subtotal by `q` times that line's unit price. */
  lemma CartAddSubtotalMerged(items: seq<SaleItem>, p: Product, q: int, k: nat)
    requires CartInvariant(items)
    requires k < |items| && items[k].productId == p.id
    ensures Subtotal(CartAdd(items, p, q)) == Subtotal(items) + q as real * items[k].unitPrice
  {
    var m := LineIs(p.id);
    assert Find(items, m).Some?;
    forall i | 0 <= i < |items| && i != k ensures !m(items[i]) {
    }
    MergedSubtotal(items, m, q, k);
  }

  /** Merging into the only matching line `k` adds `q` units' worth at its unit price. */
  lemma MergedSubtotal(items: seq<SaleItem>, m: SaleItem -> bool, q: int, k: nat)
    requires k < |items| && m(items[k]) && LineConsistent(items[k])
    requires forall i :: 0 <= i < |items| && i != k ==> !m(items[i])
    ensures Subtotal(MapWhere(items, m, Merged(q))) == Subtotal(items) + q as real * items[k].unitPrice
  {
    SumMapWhereOne(items, m, Merged(q), LineTotal, k);
    var line := items[k];
    assert LineTotal(Merged(q)(line)) == (line.quantity + q) as real * line.unitPrice;
    Distributes(line.quantity as real, q as real, line.unitPrice);
  }

  lemma Distributes(a: real, b: real, c: real)
    ensures (a + b) * c == a * c + b * c
  {
  }

  /** A new line raises the subtotal by `q` times the product's price. */
  lemma CartAddSubtotalNew(items: seq<SaleItem>, p: Product, q: int)
    requires forall i :: 0 <= i < |items| ==> items[i].productId != p.id
    ensures Subtotal(CartAdd(items, p, q)) == Subtotal(items) + q as real * p.price
  {
    SumRealConcat(items, [NewLine(p, q)], LineTotal);
    assert SumReal([NewLine(p, q)], LineTotal) == q as real * p.price by {
      assert [NewLine(p, q)][..0] == [];
    }
  }

  /** Removing a product's line lowers the subtotal by that line's total. */
  lemma CartRemoveSubtotal(items: seq<SaleItem>, id: Id, k: nat)
    requires CartInvariant(items)
    requires k < |items| && items[k].productId == id
    ensures Subtotal(CartRemove(items, id)) == Subtotal(items) - items[k].total
  {
    SumFilterOutOne(items, Not(LineIs(id)), LineTotal, k);
  }

  // ---------------------------------------------------------------------------
  // String.prototype.trim.

  /** The characters `trim` strips: ECMAScript white space and line terminators. */
  predicate IsWhiteSpace(c: char) {
    || c == '\t' || c == '\n' || c == '\U{B}' || c == '\U{C}' || c == '\r' || c == ' '
    || c == '\U{A0}' || c == '\U{1680}' || ('\U{2000}' <= c <= '\U{200A}')
    || c == '\U{2028}' || c == '\U{2029}' || c == '\U{202F}' || c == '\U{205F}'
    || c == '\U{3000}' || c == '\U{FEFF}'
  }

  predicate IsBlank(s: string) { forall i :: 0 <= i < |s| ==> IsWhiteSpace(s[i]) }

  function TrimStart(s: string): (r: string)
    ensures |r| <= |s| && r == s[|s| - |r|..]
    ensures r == [] || !IsWhiteSpace(r[0])
    ensures forall i :: 0 <= i < |s| - |r| ==> IsWhiteSpace(s[i])
    decreases |s|
  {
    if s != [] && IsWhiteSpace(s[0]) then
      var r := TrimStart(s[1..]);
      assert forall i :: 1 <= i < |s| - |r| ==> s[i] == s[1..][i - 1];
      r
    else s
  }

  function TrimEnd(s: string): (r: string)
    ensures |r| <= |s| && r == s[..|r|]
    ensures r == [] || !IsWhiteSpace(r[|r| - 1])
    ensures forall i :: |r| <= i < |s| ==> IsWhiteSpace(s[i])
    decreases |s|
  {
    if s != [] && IsWhiteSpace(s[|s| - 1]) then TrimEnd(s[..|s| - 1]) else s
  }

  function Trim(s: string): string { TrimEnd(TrimStart(s)) }

  lemma {:induction false} TrimStartBlank(s: string)
    ensures TrimStart(s) == [] <==> IsBlank(s)
    decreases |s|
  {
    if s != [] && IsWhiteSpace(s[0]) {
      TrimStartBlank(s[1..]);
      assert IsBlank(s) <==> IsBlank(s[1..]) by {
        assert forall i :: 1 <= i < |s| ==> s[i] == s[1..][i - 1];
      }
    }
  }

  lemma {:induction false} TrimEndBlank(s: string)
    ensures TrimEnd(s) == [] <==> IsBlank(s)
    decreases |s|
  {
    if s != [] && IsWhiteSpace(s[|s| - 1]) {
      TrimEndBlank(s[..|s| - 1]);
    }
  }

  /** `!s.trim()` holds exactly when the string is empty or all white space. */
  lemma TrimEmptyIffBlank(s: string)
    ensures Trim(s) == [] <==> IsBlank(s)
  {
    var t := TrimStart(s);
    TrimStartBlank(s);
    TrimEndBlank(t);
    if t != [] {
      assert !IsBlank(t) by { assert !IsWhiteSpace(t[0]); }
    }
  }

  // ---------------------------------------------------------------------------
  // The form.

  datatype FormData = FormData(
    customerId: Id, customerName: string, documentType: DocumentType, paymentMethod: PaymentMethod)

  /** `customers.find(c => c.id === id)?.name || ''`. */
  function CustomerNameFor(customers: seq<Customer>, id: Id): (name: string)
    ensures (forall i :: 0 <= i < |customers| ==> customers[i].id != id) ==> name == ""
    ensures forall i ::
      (0 <= i < |customers| && customers[i].id == id && forall j :: 0 <= j < i ==> customers[j].id != id)
      ==> name == customers[i].name
  {
    var k := FirstIndex(customers, CustomerIdIs(id));
    if k < |customers| then customers[k].name else ""
  }

  /** The product `addItem` adds: none when nothing is selected or the selection is unknown. */
  function Picked(products: seq<Product>, selected: Id): (r: Option<Product>)
    ensures r.Some? ==> r.value in products && r.value.id == selected
    ensures r.None? <==> selected == "" || forall i :: 0 <= i < |products| ==> products[i].id != selected
  {
    if selected == "" then None
    else
      var k := FirstIndex(products, ProductIdIs(selected));
      if k < |products| then Some(products[k]) else None
  }

  /** Like `find`, the pick is the first product with the selected id. */
  lemma PickedFirst(products: seq<Product>, selected: Id, k: nat)
    requires selected != "" && FirstProductWith(products, selected, k)
    ensures Picked(products, selected) == Some(products[k])
  {
    var j := FirstIndex(products, ProductIdIs(selected));
    assert j <= k;
  }

  /** `parseInt(value) || 1`: an unparsable entry or zero gives one. */
  function QuantityEntry(parsed: Option<int>): (q: int)
    ensures q != 0
    ensures parsed.Some? && parsed.value != 0 ==> q == parsed.value
    ensures parsed.None? || parsed.value == 0 ==> q == 1
  {
    if parsed.Some? && parsed.value != 0 then parsed.value else 1
  }

  datatype SubmitOutcome = EmptyCart | MissingCustomerName | Posted(draft: SaleDraft)

  /** The submit guards, then the sale `handleSubmit` hands to `addSale`. */
  function Submit(form: FormData, items: seq<SaleItem>): (r: SubmitOutcome)
    ensures r.EmptyCart? <==> items == []
    ensures r.MissingCustomerName? <==> items != [] && IsBlank(form.customerName)
    ensures r.Posted? ==>
      && r.draft.items == items
      && r.draft.customerName == form.customerName
      && r.draft.customerId == (if form.customerId == "" then None else Some(form.customerId))
      && r.draft.paymentMethod == form.paymentMethod
      && r.draft.documentType == form.documentType
      && r.draft.status == Completed
      && r.draft.subtotal == Subtotal(items)
      && r.draft.tax == r.draft.subtotal * 0.18
      && r.draft.total == r.draft.subtotal * 1.18
  {
    TrimEmptyIffBlank(form.customerName);
    TotalIsGrossedUp(Subtotal(items));
    if |items| == 0 then EmptyCart
    else if Trim(form.customerName) == [] then MissingCustomerName
    else
      var subtotal := Subtotal(items);
      Posted(SaleDraft(
        if form.customerId == "" then None else Some(form.customerId),
        form.customerName, items, subtotal, Tax(subtotal), Total(subtotal),
        form.paymentMethod, form.documentType, Completed))
  }

  /**
   * A first sale: three units of a product priced 10 with stock 5 and
   * minimum 2, on an empty history. The receipt is `B001-00000001`, the
   * subtotal 30, the tax 5.40, the total 35.40, and the product is left
   * with stock 2, which is low.
   */
  lemma FirstSaleExample(p: Product, now: Timestamp)
    requires p.price == 10.0 && p.stock == 5 && p.minStock == 2
    ensures var line := NewLine(p, 3);
      && ItemsResolve([p], [line])
      && NextDocumentNumber([], Boleta) == "B001-00000001"
      && Subtotal([line]) == 30.0 && Tax(Subtotal([line])) == 5.4 && Total(Subtotal([line])) == 35.4
      && DecrementedStock([p], [line], now)[0].stock == 2
      && IsLowStock(DecrementedStock([p], [line], now)[0])
  {
    var line := NewLine(p, 3);
    assert [p][0].id == line.productId;
    assert [line][..0] == [];
    assert Subtotal([line]) == SumReal([line][..0], LineTotal) + line.total;
    assert line.total == 3.0 * 10.0;
    FirstNumbers();
    assert CountOfType([], Boleta) == 0;
    StockLoweredByQuantity([p], [line], now, 0, 0);
  }

  class SaleFormState {
    var formData: FormData
    var items: seq<SaleItem>
    var selectedProduct: Id
    var quantity: int

    predicate Valid()
      reads this
    {
      CartInvariant(items)
    }

    /** An empty receipt paid in cash, no customer, no selection, quantity one. */
    constructor ()
      ensures formData == FormData("", "", Boleta, Efectivo)
      ensures items == [] && selectedProduct == "" && quantity == 1
      ensures Valid()
    {
      formData := FormData("", "", Boleta, Efectivo);
      items := [];
      selectedProduct := "";
      quantity := 1;
    }

    /** `handleCustomerChange`: record the id and copy the customer's name, or the empty string. */
    method HandleCustomerChange(customers: seq<Customer>, customerId: Id)
      modifies this`formData
      ensures formData == old(formData).(customerId := customerId, customerName := CustomerNameFor(customers, customerId))
    {
      var name := CustomerNameFor(customers, customerId);
      formData := formData.(customerId := customerId, customerName := name);
    }

    /** The quantity field: `setQuantity(parseInt(value) || 1)`. */
    method EnterQuantity(parsed: Option<int>)
      modifies this`quantity
      ensures quantity == QuantityEntry(parsed)
    {
      quantity := QuantityEntry(parsed);
    }

    /**
     * `addItem`: without a known selection nothing changes; otherwise the
     * selected quantity goes into the cart, the selection is cleared and the
     * quantity goes back to one.
     */
    method AddItem(products: seq<Product>)
      requires Valid()
      modifies this`items, this`selectedProduct, this`quantity
      ensures Valid()
      ensures Picked(products, old(selectedProduct)).None? ==>
        items == old(items) && selectedProduct == old(selectedProduct) && quantity == old(quantity)
      ensures Picked(products, old(selectedProduct)).Some? ==>
        && items == CartAdd(old(items), Picked(products, old(selectedProduct)).value, old(quantity))
        && selectedProduct == "" && quantity == 1
    {
      var product := Picked(products, selectedProduct);
      if product.None? {
        return;
      }
      CartAddPreserves(items, product.value, quantity);
      items := CartAdd(items, product.value, quantity);
      selectedProduct := "";
      quantity := 1;
    }

    /** `removeItem`. */
    method RemoveItem(productId: Id)
      requires Valid()
      modifies this`items
      ensures Valid()
      ensures items == CartRemove(old(items), productId)
    {
      CartRemovePreserves(items, productId);
      items := CartRemove(items, productId);
    }

    /** `updateItemQuantity`. */
    method UpdateItemQuantity(productId: Id, newQuantity: int)
      requires Valid()
      modifies this`items
      ensures Valid()
      ensures items == CartSetQuantity(old(items), productId, newQuantity)
    {
      CartSetQuantityPreserves(items, productId, newQuantity);
      if newQuantity <= 0 {
        RemoveItem(productId);
        return;
      }
      items := MapWhere(items, LineIs(productId), Requantified(newQuantity));
    }

    /**
     * `handleSubmit`: an empty cart or a blank customer name stops the
     * submission with the store untouched; otherwise the sale is posted.
     */
    method HandleSubmit(store: Store, id: Id, now: Timestamp) returns (outcome: SubmitOutcome)
      requires Submit(formData, items).Posted? ==> ItemsResolve(store.products, items)
      modifies store`products, store`customers, store`sales
      ensures outcome == Submit(formData, items)
      ensures !outcome.Posted? ==>
        store.products == old(store.products) && store.customers == old(store.customers) && store.sales == old(store.sales)
      ensures outcome.Posted? ==>
        && store.sales == old(store.sales)
             + [SaleOf(outcome.draft, id, NextDocumentNumber(old(store.sales), formData.documentType), now)]
        && store.products == DecrementedStock(old(store.products), items, now)
        && store.customers == CreditCustomer(old(store.customers), outcome.draft.customerId, outcome.draft.total)
    {
      outcome := Submit(formData, items);
      if outcome.Posted? {
        var _ := store.AddSale(outcome.draft, id, now);
      }
    }
  }
}
