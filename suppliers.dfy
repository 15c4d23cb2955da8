/**
 * The supplier screen: the search box, and per supplier the list and count
 * of the products that name it.
 *
 * `lower` stands for `String.prototype.toLowerCase`.
 */
module Suppliers {
  import opened Types
  import opened Seqs
  import opened Store

  /** Name or email contain the term ignoring case, or the RUC contains it as typed. */
  predicate SupplierMatches(s: Supplier, term: string, lower: string -> string) {
    || Contains(lower(s.name), lower(term))
    || Contains(lower(s.email), lower(term))
    || Contains(s.ruc, term)
  }

  function MatchesTerm(term: string, lower: string -> string): Supplier -> bool {
    (s: Supplier) => SupplierMatches(s, term, lower)
  }

  /** `filteredSuppliers`. */
  function FilteredSuppliers(suppliers: seq<Supplier>, term: string, lower: string -> string): seq<Supplier> {
    Filter(suppliers, MatchesTerm(term, lower))
  }

  /** The matching suppliers, all of them, in list order. */
  lemma FilteredSuppliersExact(suppliers: seq<Supplier>, term: string, lower: string -> string)
    ensures forall i :: 0 <= i < |FilteredSuppliers(suppliers, term, lower)| ==>
      FilteredSuppliers(suppliers, term, lower)[i] in suppliers
      && SupplierMatches(FilteredSuppliers(suppliers, term, lower)[i], term, lower)
    ensures forall i :: 0 <= i < |suppliers| && SupplierMatches(suppliers[i], term, lower) ==>
      suppliers[i] in FilteredSuppliers(suppliers, term, lower)
    ensures IsSubsequence(FilteredSuppliers(suppliers, term, lower), suppliers)
    ensures forall x :: multiset(FilteredSuppliers(suppliers, term, lower))[x] ==
               if SupplierMatches(x, term, lower) then multiset(suppliers)[x] else 0
  {
    FilterMultiplicity(suppliers, MatchesTerm(term, lower));
    FilterMembers(suppliers, MatchesTerm(term, lower));
    FilterOrder(suppliers, MatchesTerm(term, lower));
  }

  /** An empty term lists every supplier (the RUC test alone already passes). */
  lemma EmptyTermKeepsAllSuppliers(suppliers: seq<Supplier>, lower: string -> string)
    ensures FilteredSuppliers(suppliers, "", lower) == suppliers
  {
    forall i | 0 <= i < |suppliers| ensures SupplierMatches(suppliers[i], "", lower) {
      ContainsEmpty(suppliers[i].ruc);
    }
    FilterOrder(suppliers, MatchesTerm("", lower));
  }

  function SuppliedBy(id: Id): Product -> bool { (p: Product) => p.supplier == id }

  /** `getSupplierProducts`. */
  function SupplierProducts(products: seq<Product>, id: Id): seq<Product> { Filter(products, SuppliedBy(id)) }

  /** Exactly the products that name the supplier, in store order. */
  lemma SupplierProductsExact(products: seq<Product>, id: Id)
    ensures forall i :: 0 <= i < |SupplierProducts(products, id)| ==>
      SupplierProducts(products, id)[i] in products && SupplierProducts(products, id)[i].supplier == id
    ensures forall i :: 0 <= i < |products| && products[i].supplier == id ==> products[i] in SupplierProducts(products, id)
    ensures IsSubsequence(SupplierProducts(products, id), products)
    ensures forall x :: multiset(SupplierProducts(products, id))[x] == if x.supplier == id then multiset(products)[x] else 0
  {
    FilterMultiplicity(products, SuppliedBy(id));
    FilterMembers(products, SuppliedBy(id));
    FilterOrder(products, SuppliedBy(id));
  }

  /** The count on the supplier card. */
  function SupplierProductCount(products: seq<Product>, id: Id): nat { |SupplierProducts(products, id)| }

  /** Adding a product raises the count of exactly the supplier it names. */
  lemma SupplierProductCountAfterAdd(products: seq<Product>, p: Product, id: Id)
    ensures SupplierProductCount(products + [p], id) == SupplierProductCount(products, id) + (if p.supplier == id then 1 else 0)
  {
    assert (products + [p])[..|products|] == products;
  }
}
