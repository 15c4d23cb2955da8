/**
 * The product screen: the category list, the search and category filter,
 * the low-stock marker, the colour of the stock figure, and the supplier
 * label.
 *
 * `lower` stands for `String.prototype.toLowerCase`.
 */
module Products {
  import opened Types
  import opened Seqs
  import opened Store

  // ---------------------------------------------------------------------------
  // Categories.

  function CategoryList(products: seq<Product>): seq<string> {
    seq(|products|, i requires 0 <= i < |products| => products[i].category)
  }

  /** `[...new Set(products.map(p => p.category))]`. */
  function Categories(products: seq<Product>): seq<string> { Dedupe(CategoryList(products)) }

  /** Each category of a product appears exactly once, and in order of first appearance. */
  lemma CategoriesExact(products: seq<Product>)
    ensures forall i :: 0 <= i < |products| ==> products[i].category in Categories(products)
    ensures forall c :: c in Categories(products) ==> exists i :: 0 <= i < |products| && products[i].category == c
    ensures forall i, j :: 0 <= i < j < |Categories(products)| ==> Categories(products)[i] != Categories(products)[j]
    ensures forall i, j :: 0 <= i < j < |Categories(products)| ==>
      IndexOf(CategoryList(products), Categories(products)[i]) < IndexOf(CategoryList(products), Categories(products)[j])
  {
    var names := CategoryList(products);
    assert forall i :: 0 <= i < |products| ==> names[i] == products[i].category;
    DedupeFirstOccurrenceOrder(names);
  }

  // ---------------------------------------------------------------------------
  // Filter.

  /** Name or description contain the term ignoring case, and the category filter is off or equal. */
  predicate ProductMatches(p: Product, term: string, category: string, lower: string -> string) {
    && (Contains(lower(p.name), lower(term)) || Contains(lower(p.description), lower(term)))
    && (category == "" || p.category == category)
  }

  function MatchesFilter(term: string, category: string, lower: string -> string): Product -> bool {
    (p: Product) => ProductMatches(p, term, category, lower)
  }

  /** `filteredProducts`. */
  function FilteredProducts(products: seq<Product>, term: string, category: string, lower: string -> string): seq<Product> {
    Filter(products, MatchesFilter(term, category, lower))
  }

  /** The matching products, all of them, in store order. */
  lemma FilteredProductsExact(products: seq<Product>, term: string, category: string, lower: string -> string)
    ensures forall i :: 0 <= i < |FilteredProducts(products, term, category, lower)| ==>
      FilteredProducts(products, term, category, lower)[i] in products
      && ProductMatches(FilteredProducts(products, term, category, lower)[i], term, category, lower)
    ensures forall i :: 0 <= i < |products| && ProductMatches(products[i], term, category, lower) ==>
      products[i] in FilteredProducts(products, term, category, lower)
    ensures IsSubsequence(FilteredProducts(products, term, category, lower), products)
    ensures forall x :: multiset(FilteredProducts(products, term, category, lower))[x] ==
               if ProductMatches(x, term, category, lower) then multiset(products)[x] else 0
  {
    FilterMultiplicity(products, MatchesFilter(term, category, lower));
    FilterMembers(products, MatchesFilter(term, category, lower));
    FilterOrder(products, MatchesFilter(term, category, lower));
  }

  /** With no term and no category every product is listed (lower-casing the empty string gives it back). */
  lemma NoFilterKeepsAllProducts(products: seq<Product>, lower: string -> string)
    requires lower("") == ""
    ensures FilteredProducts(products, "", "", lower) == products
  {
    forall i | 0 <= i < |products| ensures ProductMatches(products[i], "", "", lower) {
      ContainsEmpty(lower(products[i].name));
    }
    FilterOrder(products, MatchesFilter("", "", lower));
  }

  /** A category filter lists only products of that category. */
  lemma CategoryFilterSelects(products: seq<Product>, term: string, category: string, lower: string -> string)
    requires category != ""
    ensures forall i :: 0 <= i < |FilteredProducts(products, term, category, lower)| ==>
      FilteredProducts(products, term, category, lower)[i].category == category
  {
  }

  // ---------------------------------------------------------------------------
  // Stock display.

  /** The warning icon beside the product name shows on exactly the products the low-stock query reports. */
  lemma MarkerMatchesLowStockList(products: seq<Product>, i: nat)
    requires i < |products|
    ensures IsLowStock(products[i]) <==> products[i] in LowStockProducts(products)
  {
  }

  datatype StockTier = Red | Amber | Green

  /** The colour of the stock figure; the amber bound is one and a half times the minimum. */
  function StockTierOf(p: Product): StockTier {
    if p.stock <= p.minStock then Red
    else if p.stock as real <= p.minStock as real * 1.5 then Amber
    else Green
  }

  /** The tiers in whole numbers: red at or below the minimum, amber up to half again above it, green beyond. */
  lemma StockTierBounds(p: Product)
    ensures StockTierOf(p) == Red <==> p.stock <= p.minStock
    ensures StockTierOf(p) == Amber <==> p.minStock < p.stock && 2 * p.stock <= 3 * p.minStock
    ensures StockTierOf(p) == Green <==> p.minStock < p.stock && 2 * p.stock > 3 * p.minStock
  {
    assert (p.stock as real <= p.minStock as real * 1.5) <==> ((2 * p.stock) as real <= (3 * p.minStock) as real);
  }

  /** A red figure and the low-stock marker go together. */
  lemma RedTierIsMarked(p: Product)
    ensures StockTierOf(p) == Red <==> IsLowStock(p)
  {
  }

  // ---------------------------------------------------------------------------
  // Supplier label.

  /** `suppliers.find(s => s.id === product.supplier)?.name || 'N/A'`. */
  function SupplierLabel(suppliers: seq<Supplier>, supplierId: Id): (shown: string)
    ensures (forall i :: 0 <= i < |suppliers| ==> suppliers[i].id != supplierId) ==> shown == "N/A"
    ensures forall i ::
      (0 <= i < |suppliers| && suppliers[i].id == supplierId && forall j :: 0 <= j < i ==> suppliers[j].id != supplierId)
      ==> shown == (if suppliers[i].name == "" then "N/A" else suppliers[i].name)
  {
    var k := FirstIndex(suppliers, (s: Supplier) => s.id == supplierId);
    if k < |suppliers| && suppliers[k].name != "" then suppliers[k].name else "N/A"
  }

  /** Once its supplier is deleted, a product shows `N/A`; the product itself keeps the old id. */
  lemma DeletedSupplierShowsNA(suppliers: seq<Supplier>, p: Product)
    ensures SupplierLabel(WithoutSupplier(suppliers, p.supplier), p.supplier) == "N/A"
  {
  }
}
