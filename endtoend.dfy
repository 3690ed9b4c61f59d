/**
 * Properties that tie the client pages to the server they talk to: what
 * the dashboard and the product list show when the API is the inventory
 * server, and the worked examples of the aggregation.
 */
module EndToEnd {
  import opened Wrappers
  import opened Schemas
  import opened Store
  import opened Api
  import opened ProductList
  import opened DashboardPage

  /**
   * The dashboard over the server's table: the product count is the size
   * of the whole table, while the low-stock count and the value cover only
   * the first five rows, which are the ones listed as recent.
   */
  lemma DashboardOverStore(ps: seq<Product>, nextId: int)
    requires ProductTable(ps, nextId)
    ensures var listing := Listing(ps, RECENT_PAGE, RECENT_COUNT);
      var stats := PageStats(listing);
      listing.products == ps[..Min(RECENT_COUNT, |ps|)]
      && stats.totalProducts == |ps|
      && stats.lowStock <= RECENT_COUNT && stats.lowStock <= |ps|
      && stats.totalValue >= 0.0
  {
    var listing := Listing(ps, RECENT_PAGE, RECENT_COUNT);
    assert listing.products == ps[..Min(RECENT_COUNT, |ps|)];
    TotalValueNonNegative(listing.products);
  }

  /** The dashboard's low-stock count of a batch is the number of rows the list's 'low-stock' view shows for it with no search. */
  lemma LowStockCountIsLowStockView(ps: seq<Product>)
    ensures LowStockCount(ps) == |VisibleRows(ps, "", LowStock)|
  {
    LowStockNarrowsAll(ps, "");
    EmptySearchShowsAll(ps);
  }

  /**
   * Paging through the server's table ten at a time reaches every row:
   * row `i` is on a page the Previous/Next cursor can take, namely page
   * `i / 10 + 1`, at position `i % 10`.
   */
  lemma {:induction false} EveryRowOnSomeListPage(ps: seq<Product>, i: int)
    requires 0 <= i < |ps|
    ensures 1 <= i / PAGE_SIZE + 1 <= PageCount(|ps|)
    ensures var listing := Listing(ps, i / PAGE_SIZE + 1, PAGE_SIZE);
      i % PAGE_SIZE < |listing.products| && listing.products[i % PAGE_SIZE] == ps[i]
  {
    ListingReachesEveryRow(ps, PAGE_SIZE, i);
    var n := PageCount(|ps|);
    assert (i / PAGE_SIZE) * PAGE_SIZE <= i < n * PAGE_SIZE;
  }

  /** Two products worth 10 x 2 and 5 x 3 have a total value of 35. */
  lemma {:induction false} TotalValueExample()
    ensures TotalValue([
      Product(1, "A", "T", "A1", None, None, 2, 10.0),
      Product(2, "B", "T", "B1", None, None, 3, 5.0)]) == 35.0
  {
    var a := Product(1, "A", "T", "A1", None, None, 2, 10.0);
    var b := Product(2, "B", "T", "B1", None, None, 3, 5.0);
    assert [a, b][1..] == [b];
    assert SumValue([b]) == 15.0;
  }

  /** One product of five units at 10 gives a count of 1, one low-stock product and a value of 50. */
  lemma {:induction false} PageStatsExample()
    ensures PageStats(ProductListing([Product(1, "A", "T", "A1", None, None, 5, 10.0)], 1, 1, 10))
      == Stats(1, 1, 50.0)
  {
    var a := Product(1, "A", "T", "A1", None, None, 5, 10.0);
    assert IsLowStock(a);
    assert SumValue([a]) == 50.0;
  }
}
