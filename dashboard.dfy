/**
 * The dashboard: summary figures computed from the first page of five
 * products, with the product count taken from the server's total.
 */
module DashboardPage {
  import opened Wrappers
  import opened Seqs
  import opened Schemas
  import opened Api

  /** The dashboard asks for page 1 with five products per page. */
  const RECENT_PAGE := 1
  const RECENT_COUNT := 5

  const DASHBOARD_FAILED := "Failed to load dashboard data"

  /** The three figures on the dashboard's cards. */
  datatype Stats = Stats(totalProducts: int, lowStock: int, totalValue: real)

  /** The value of the stock held of one product. */
  function StockValue(p: Product): real {
    p.price * p.quantity as real
  }

  /** The stock value summed over `ps`, first product first. */
  function SumValue(ps: seq<Product>): real {
    if ps == [] then 0.0 else StockValue(ps[0]) + SumValue(ps[1..])
  }

  /** `reduce((sum, product) => sum + product.price * product.quantity, acc)` over `ps`. */
  function FoldValue(acc: real, ps: seq<Product>): real
    decreases |ps|
  {
    if ps == [] then acc else FoldValue(acc + StockValue(ps[0]), ps[1..])
  }

  /** The reduce that starts from 0 adds `acc` to the sum of the stock values. */
  lemma {:induction false} FoldValueIsSum(acc: real, ps: seq<Product>)
    ensures FoldValue(acc, ps) == acc + SumValue(ps)
    decreases |ps|
  {
    if ps != [] {
      FoldValueIsSum(acc + StockValue(ps[0]), ps[1..]);
    }
  }

  /** The total inventory value of a batch: price times quantity summed over it; 0 for no products. */
  function TotalValue(ps: seq<Product>): (r: real)
    ensures r == SumValue(ps)
    ensures ps == [] ==> r == 0.0
  {
    FoldValueIsSum(0.0, ps);
    FoldValue(0.0, ps)
  }

  /** The total value of two batches together is the sum of their totals. */
  lemma {:induction false} TotalValueAppend(a: seq<Product>, b: seq<Product>)
    ensures TotalValue(a + b) == TotalValue(a) + TotalValue(b)
  {
    if a == [] {
      assert a + b == b;
    } else {
      assert (a + b)[1..] == a[1..] + b;
      TotalValueAppend(a[1..], b);
    }
  }

  /** Products that satisfy the schema (positive price, non-negative quantity) have a non-negative total value. */
  lemma {:induction false} TotalValueNonNegative(ps: seq<Product>)
    requires forall i :: 0 <= i < |ps| ==> ValidProduct(ps[i])
    ensures TotalValue(ps) >= 0.0
  {
    if ps != [] {
      TotalValueNonNegative(ps[1..]);
      assert StockValue(ps[0]) >= 0.0;
    }
  }

  /** The number of low-stock products in `ps`, counted one product at a time. */
  function CountLow(ps: seq<Product>): nat {
    if ps == [] then 0 else (if IsLowStock(ps[0]) then 1 else 0) + CountLow(ps[1..])
  }

  /**
   * `products.filter(p => p.quantity < 10).length`: how many products of
   * the batch are low on stock; none exactly when no product is.
   */
  function LowStockCount(ps: seq<Product>): (r: nat)
    ensures r == CountLow(ps)
    ensures r <= |ps|
    ensures r == 0 <==> forall i :: 0 <= i < |ps| ==> !IsLowStock(ps[i])
  {
    var low := Filter(ps, IsLowStock);
    FilterLengthIsCount(ps);
    assert low != [] ==> IsLowStock(low[0]);
    |low|
  }

  /** Keeping the low-stock products keeps exactly `CountLow` of them. */
  lemma {:induction false} FilterLengthIsCount(ps: seq<Product>)
    ensures |Filter(ps, IsLowStock)| == CountLow(ps)
  {
    if ps != [] {
      FilterLengthIsCount(ps[1..]);
    }
  }

  /** The low-stock count of two batches together is the sum of their counts. */
  lemma LowStockCountAppend(a: seq<Product>, b: seq<Product>)
    ensures LowStockCount(a + b) == LowStockCount(a) + LowStockCount(b)
  {
    FilterAppend(a, b, IsLowStock);
  }

  /** The figures for a fetched page: the server's total, and the low-stock count and value of the page's own products. */
  function PageStats(listing: ProductListing): (r: Stats)
    ensures r.totalProducts == listing.total
    ensures r.lowStock == CountLow(listing.products) && r.lowStock <= |listing.products|
    ensures r.totalValue == SumValue(listing.products)
  {
    Stats(listing.total, LowStockCount(listing.products), TotalValue(listing.products))
  }

  /**
   * The page's state: the figures, the products listed as recent, the
   * loading flag, and logs of the API calls made and the toasts shown.
   */
  class Dashboard {
    var stats: Stats
    var recentProducts: seq<Product>
    var loading: bool
    var requests: seq<Request>
    var toasts: seq<Toast>

    /** The figures start at zero, before the mount effect's fetch. */
    constructor()
      ensures stats == Stats(0, 0, 0.0) && recentProducts == [] && loading
      ensures requests == [] && toasts == []
    {
      stats := Stats(0, 0, 0.0);
      recentProducts := [];
      loading := true;
      requests, toasts := [], [];
    }

    /**
     * `fetchDashboardData`: ask for page 1 of five. On an answer, the
     * figures come from it and its products become the recent ones; on a
     * failure, the figures and the recent products stay as they were and
     * an error toast is shown. Loading ends either way.
     */
    method FetchDashboardData(response: Option<ProductListing>)
      modifies this
      ensures requests == old(requests) + [GetAll(RECENT_PAGE, RECENT_COUNT)]
      ensures !loading
      ensures response.Some? ==>
        stats == PageStats(response.value) && recentProducts == response.value.products
        && toasts == old(toasts)
      ensures response.None? ==>
        stats == old(stats) && recentProducts == old(recentProducts)
        && toasts == old(toasts) + [ToastError(DASHBOARD_FAILED)]
    {
      requests := requests + [GetAll(RECENT_PAGE, RECENT_COUNT)];
      if response.Some? {
        stats := PageStats(response.value);
        recentProducts := response.value.products;
      } else {
        toasts := toasts + [ToastError(DASHBOARD_FAILED)];
      }
      loading := false;
    }
  }
}
