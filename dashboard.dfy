/**
 * The dashboard's derived figures: revenue, units sold per product and the
 * five best-selling products, the five most recent sales, the low-stock
 * alert, and the headline counts.
 */
module Dashboard {
  import opened Types
  import opened Seqs
  import opened Store

  // ---------------------------------------------------------------------------
  // Revenue.

  /** `totalSales`: the sum of all sale totals, whatever each sale's status. */
  function TotalRevenue(sales: seq<Sale>): real { SumReal(sales, SaleTotal) }

  /** Every sale appended to the history adds its total to revenue, pending and cancelled ones included. */
  lemma TotalRevenueAppend(sales: seq<Sale>, s: Sale)
    ensures TotalRevenue(sales + [s]) == TotalRevenue(sales) + s.total
  {
    assert (sales + [s])[..|sales|] == sales;
  }

  // ---------------------------------------------------------------------------
  // Units sold.

  /** `sale.items.find(item => item.productId === id)`: the first line's quantity, or 0. */
  function QuantityIn(items: seq<SaleItem>, id: Id): (q: int)
    ensures (forall k :: 0 <= k < |items| ==> items[k].productId != id) ==> q == 0
    ensures forall k ::
      (0 <= k < |items| && items[k].productId == id && forall l :: 0 <= l < k ==> items[l].productId != id)
      ==> q == items[k].quantity
  {
    var k := FirstIndex(items, LineIs(id));
    if k < |items| then items[k].quantity else 0
  }

  /** The quantities of all lines naming `id`, added up. */
  function LinesQuantity(items: seq<SaleItem>, id: Id): int
    decreases |items|
  {
    if items == [] then 0
    else LinesQuantity(items[..|items| - 1], id) + (if items[|items| - 1].productId == id then items[|items| - 1].quantity else 0)
  }

  lemma {:induction false} LinesQuantityAbsent(items: seq<SaleItem>, id: Id)
    requires forall k :: 0 <= k < |items| ==> items[k].productId != id
    ensures LinesQuantity(items, id) == 0
    decreases |items|
  {
    if items != [] {
      LinesQuantityAbsent(items[..|items| - 1], id);
    }
  }

  /** When no two lines name the same product, the first line's quantity is all there is. */
  lemma {:induction false} FirstLineIsAllLines(items: seq<SaleItem>, id: Id)
    requires DistinctProductIds(items)
    ensures QuantityIn(items, id) == LinesQuantity(items, id)
    decreases |items|
  {
    if items != [] {
      var front, last := items[..|items| - 1], items[|items| - 1];
      assert forall k :: 0 <= k < |front| ==> front[k] == items[k];
      FirstLineIsAllLines(front, id);
      var k := FirstIndex(front, LineIs(id));
      if k < |front| {
        assert last.productId != id;
      } else if last.productId == id {
        LinesQuantityAbsent(front, id);
      }
    }
  }

  /** `totalSold`: units of `id` over the history, counting the first matching line of each sale. */
  function TotalSold(sales: seq<Sale>, id: Id): int
    decreases |sales|
  {
    if sales == [] then 0 else TotalSold(sales[..|sales| - 1], id) + QuantityIn(sales[|sales| - 1].items, id)
  }

  lemma TotalSoldAppend(sales: seq<Sale>, s: Sale, id: Id)
    ensures TotalSold(sales + [s], id) == TotalSold(sales, id) + QuantityIn(s.items, id)
  {
    assert (sales + [s])[..|sales|] == sales;
  }

  /** The units of `id` over the history, counting every line. */
  function AllLinesSold(sales: seq<Sale>, id: Id): int
    decreases |sales|
  {
    if sales == [] then 0 else AllLinesSold(sales[..|sales| - 1], id) + LinesQuantity(sales[|sales| - 1].items, id)
  }

  /** When every sale names each product at most once, counting first lines is counting all lines. */
  lemma {:induction false} TotalSoldCountsAllLines(sales: seq<Sale>, id: Id)
    requires forall i :: 0 <= i < |sales| ==> DistinctProductIds(sales[i].items)
    ensures TotalSold(sales, id) == AllLinesSold(sales, id)
    decreases |sales|
  {
    if sales != [] {
      TotalSoldCountsAllLines(sales[..|sales| - 1], id);
      FirstLineIsAllLines(sales[|sales| - 1].items, id);
    }
  }

  // ---------------------------------------------------------------------------
  // Best sellers.

  /** A product spread with its `totalSold`. */
  datatype RankedProduct = RankedProduct(product: Product, totalSold: int)

  function Ranked(products: seq<Product>, sales: seq<Sale>): seq<RankedProduct> {
    seq(|products|, i requires 0 <= i < |products| => RankedProduct(products[i], TotalSold(sales, products[i].id)))
  }

  function SoldKey(r: RankedProduct): int { r.totalSold }

  /** `topProducts`: the five products with most units sold. */
  function TopProducts(products: seq<Product>, sales: seq<Sale>): seq<RankedProduct> {
    TopN(Ranked(products, sales), SoldKey, 5)
  }

  /**
   * At most five entries, by non-increasing units sold; each is a product of
   * the store carrying its own `totalSold`.
   */
  lemma TopProductsShape(products: seq<Product>, sales: seq<Sale>)
    ensures |TopProducts(products, sales)| == Min(5, |products|)
    ensures SortedDesc(TopProducts(products, sales), SoldKey)
    ensures forall i :: 0 <= i < |TopProducts(products, sales)| ==>
      && TopProducts(products, sales)[i].product in products
      && TopProducts(products, sales)[i].totalSold == TotalSold(sales, TopProducts(products, sales)[i].product.id)
  {
    var ranked := Ranked(products, sales);
    var top := TopProducts(products, sales);
    TopNShape(ranked, SoldKey, 5);
    forall i | 0 <= i < |top|
      ensures top[i].product in products && top[i].totalSold == TotalSold(sales, top[i].product.id)
    {
      assert top[i] in multiset(top);
      var j :| 0 <= j < |ranked| && ranked[j] == top[i];
    }
  }

  /** A product left out of the ranking sold no more units than any product in it. */
  lemma TopProductsLeftOut(products: seq<Product>, sales: seq<Sale>, j: nat)
    requires j < |products|
    requires RankedProduct(products[j], TotalSold(sales, products[j].id)) !in TopProducts(products, sales)
    ensures forall i :: 0 <= i < |TopProducts(products, sales)| ==>
      TotalSold(sales, products[j].id) <= TopProducts(products, sales)[i].totalSold
  {
    var ranked := Ranked(products, sales);
    assert ranked[j] == RankedProduct(products[j], TotalSold(sales, products[j].id));
    TopNLeftOut(ranked, SoldKey, 5, ranked[j]);
  }

  /** Products with equal units sold appear in store order, and only the first ones make the cut. */
  lemma TopProductsStable(products: seq<Product>, sales: seq<Sale>, v: int)
    ensures Filter(TopProducts(products, sales), KeyIs(SoldKey, v)) <= Filter(Ranked(products, sales), KeyIs(SoldKey, v))
  {
    TopNStable(Ranked(products, sales), SoldKey, 5, v);
  }

  // ---------------------------------------------------------------------------
  // Recent sales.

  function CreatedAt(s: Sale): int { s.createdAt }

  /** `recentSales`: the five sales created last. */
  function RecentSales(sales: seq<Sale>): seq<Sale> { TopN(sales, CreatedAt, 5) }

  /** At most five sales of the history, newest first, and none older than a sale left out. */
  lemma RecentSalesShape(sales: seq<Sale>)
    ensures |RecentSales(sales)| == Min(5, |sales|)
    ensures SortedDesc(RecentSales(sales), CreatedAt)
    ensures multiset(RecentSales(sales)) <= multiset(sales)
    ensures forall s :: s in sales && s !in RecentSales(sales) ==>
      forall i :: 0 <= i < |RecentSales(sales)| ==> s.createdAt <= RecentSales(sales)[i].createdAt
  {
    TopNShape(sales, CreatedAt, 5);
    forall s | s in sales && s !in RecentSales(sales)
      ensures forall i :: 0 <= i < |RecentSales(sales)| ==> s.createdAt <= RecentSales(sales)[i].createdAt
    {
      TopNLeftOut(sales, CreatedAt, 5, s);
    }
  }

  // ---------------------------------------------------------------------------
  // Low-stock alert and headline figures.

  /** The alert box: hidden when nothing is low; else the count, the first three, and how many more. */
  datatype LowStockAlert = NoAlert | Alert(count: nat, listed: seq<Product>, more: Option<nat>)

  function LowStockAlertOf(products: seq<Product>): LowStockAlert {
    var low := LowStockProducts(products);
    if |low| == 0 then NoAlert
    else Alert(|low|, low[..Min(3, |low|)], if |low| > 3 then Some(|low| - 3) else None)
  }

  /**
   * The alert appears exactly when some product is low; it lists the first
   * (up to) three low-stock products in store order, and the "more" line,
   * shown only when there are more than three, counts all the others.
   */
  lemma LowStockAlertAccounts(products: seq<Product>)
    ensures LowStockAlertOf(products).NoAlert? <==> forall i :: 0 <= i < |products| ==> !IsLowStock(products[i])
    ensures LowStockAlertOf(products).Alert? ==>
      && LowStockAlertOf(products).count == |LowStockProducts(products)|
      && LowStockAlertOf(products).listed == LowStockProducts(products)[..Min(3, LowStockAlertOf(products).count)]
      && LowStockAlertOf(products).more == (if LowStockAlertOf(products).count > 3 then Some(LowStockAlertOf(products).count - 3) else None)
      && |LowStockAlertOf(products).listed| + LowStockAlertOf(products).more.GetOr(0) == LowStockAlertOf(products).count
  {
    var low := LowStockProducts(products);
    if low != [] {
      assert low[0] in products;
    }
  }

  /** The figures on the four stat tiles; "today" is a predicate on timestamps. */
  datatype Stats = Stats(totalSales: real, todaySales: nat, productCount: nat, customerCount: nat)

  function StatsOf(sales: seq<Sale>, products: seq<Product>, customers: seq<Customer>, isToday: Timestamp -> bool): (st: Stats)
    ensures st.totalSales == TotalRevenue(sales)
    ensures st.todaySales <= |sales|
    ensures st.productCount == |products| && st.customerCount == |customers|
  {
    Stats(TotalRevenue(sales), |Filter(sales, (s: Sale) => isToday(s.createdAt))|, |products|, |customers|)
  }
}
