/**
 * The customer screen: the search box, and per customer the purchase
 * history, its length and its sum, recomputed from the sales history rather
 * than read from the stored lifetime spend.
 *
 * `lower` stands for `String.prototype.toLowerCase`.
 */
module Customers {
  import opened Types
  import opened Seqs
  import opened Store

  // ---------------------------------------------------------------------------
  // Search.

  /** Name or email contain the term ignoring case, or the document number contains it as typed. */
  predicate CustomerMatches(c: Customer, term: string, lower: string -> string) {
    || Contains(lower(c.name), lower(term))
    || Contains(lower(c.email), lower(term))
    || Contains(c.documentNumber, term)
  }

  function MatchesTerm(term: string, lower: string -> string): Customer -> bool {
    (c: Customer) => CustomerMatches(c, term, lower)
  }

  /** `filteredCustomers`. */
  function FilteredCustomers(customers: seq<Customer>, term: string, lower: string -> string): seq<Customer> {
    Filter(customers, MatchesTerm(term, lower))
  }

  /** The matching customers, all of them, in list order. */
  lemma FilteredCustomersExact(customers: seq<Customer>, term: string, lower: string -> string)
    ensures forall i :: 0 <= i < |FilteredCustomers(customers, term, lower)| ==>
      FilteredCustomers(customers, term, lower)[i] in customers
      && CustomerMatches(FilteredCustomers(customers, term, lower)[i], term, lower)
    ensures forall i :: 0 <= i < |customers| && CustomerMatches(customers[i], term, lower) ==>
      customers[i] in FilteredCustomers(customers, term, lower)
    ensures IsSubsequence(FilteredCustomers(customers, term, lower), customers)
    ensures forall x :: multiset(FilteredCustomers(customers, term, lower))[x] ==
               if CustomerMatches(x, term, lower) then multiset(customers)[x] else 0
  {
    FilterMultiplicity(customers, MatchesTerm(term, lower));
    FilterMembers(customers, MatchesTerm(term, lower));
    FilterOrder(customers, MatchesTerm(term, lower));
  }

  /** An empty term lists every customer (the document-number test alone already passes). */
  lemma EmptyTermKeepsAllCustomers(customers: seq<Customer>, lower: string -> string)
    ensures FilteredCustomers(customers, "", lower) == customers
  {
    forall i | 0 <= i < |customers| ensures CustomerMatches(customers[i], "", lower) {
      ContainsEmpty(customers[i].documentNumber);
    }
    FilterOrder(customers, MatchesTerm("", lower));
  }

  // ---------------------------------------------------------------------------
  // Purchase history.

  function BoughtBy(id: Id): Sale -> bool { (s: Sale) => s.customerId == Some(id) }

  /** `getCustomerPurchases`. */
  function CustomerPurchases(sales: seq<Sale>, id: Id): seq<Sale> { Filter(sales, BoughtBy(id)) }

  /** Exactly the sales carrying the customer's id, in history order. */
  lemma CustomerPurchasesExact(sales: seq<Sale>, id: Id)
    ensures forall i :: 0 <= i < |CustomerPurchases(sales, id)| ==>
      CustomerPurchases(sales, id)[i] in sales && CustomerPurchases(sales, id)[i].customerId == Some(id)
    ensures forall i :: 0 <= i < |sales| && sales[i].customerId == Some(id) ==> sales[i] in CustomerPurchases(sales, id)
    ensures IsSubsequence(CustomerPurchases(sales, id), sales)
    ensures forall x :: multiset(CustomerPurchases(sales, id))[x] == if x.customerId == Some(id) then multiset(sales)[x] else 0
  {
    FilterMultiplicity(sales, BoughtBy(id));
    FilterMembers(sales, BoughtBy(id));
    FilterOrder(sales, BoughtBy(id));
  }

  /** The count on the customer card. */
  function PurchaseCount(sales: seq<Sale>, id: Id): nat { |CustomerPurchases(sales, id)| }

  /** The total on the customer card. */
  function PurchasesTotal(sales: seq<Sale>, id: Id): real { SumReal(CustomerPurchases(sales, id), SaleTotal) }

  /** A new sale joins the history of exactly the customer it names. */
  lemma PurchasesAfterSale(sales: seq<Sale>, s: Sale, id: Id)
    ensures CustomerPurchases(sales + [s], id)
            == CustomerPurchases(sales, id) + (if s.customerId == Some(id) then [s] else [])
    ensures PurchaseCount(sales + [s], id) == PurchaseCount(sales, id) + (if s.customerId == Some(id) then 1 else 0)
    ensures PurchasesTotal(sales + [s], id) == PurchasesTotal(sales, id) + (if s.customerId == Some(id) then s.total else 0.0)
  {
    assert (sales + [s])[..|sales|] == sales;
    var before := CustomerPurchases(sales, id);
    if s.customerId == Some(id) {
      assert (before + [s])[..|before|] == before;
    }
  }

  /** Every customer's stored lifetime spend equals the sum of their sales in the history. */
  predicate LedgersAgree(customers: seq<Customer>, sales: seq<Sale>) {
    forall i :: 0 <= i < |customers| ==> customers[i].totalPurchases == PurchasesTotal(sales, customers[i].id)
  }

  /**
   * Posting a sale (crediting its customer and appending it) keeps the stored
   * lifetime spend in step with the history, provided customer ids are
   * distinct and non-empty.
   */
  lemma PostingKeepsLedgersAgreeing(customers: seq<Customer>, sales: seq<Sale>, s: Sale)
    requires CustomerIdsDistinct(customers)
    requires forall i :: 0 <= i < |customers| ==> customers[i].id != ""
    requires LedgersAgree(customers, sales)
    ensures LedgersAgree(CreditCustomer(customers, s.customerId, s.total), sales + [s])
  {
    var credited := CreditCustomer(customers, s.customerId, s.total);
    CreditCustomerEffect(customers, s.customerId, s.total);
    forall i | 0 <= i < |credited|
      ensures credited[i].totalPurchases == PurchasesTotal(sales + [s], credited[i].id)
    {
      PurchasesAfterSale(sales, s, customers[i].id);
    }
  }

  /** Registering a customer with zero spend, under an id no sale carries yet, keeps the ledgers in step. */
  lemma RegisteringKeepsLedgersAgreeing(customers: seq<Customer>, sales: seq<Sale>, c: Customer)
    requires LedgersAgree(customers, sales)
    requires c.totalPurchases == 0.0
    requires forall i :: 0 <= i < |sales| ==> sales[i].customerId != Some(c.id)
    ensures LedgersAgree(customers + [c], sales)
  {
    FilterNone(sales, BoughtBy(c.id));
    var all := customers + [c];
    assert forall i :: 0 <= i < |customers| ==> all[i] == customers[i];
  }
}
