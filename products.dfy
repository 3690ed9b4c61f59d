/**
 * The product list page: one page of ten products fetched from the API,
 * narrowed on the client by a search term (matched against name and SKU,
 * ignoring case) and a stock filter, with Previous/Next paging and an
 * inline quantity editor on each row.
 */
module ProductList {
  import opened Wrappers
  import opened Seqs
  import opened Text
  import opened Numbers
  import opened Schemas
  import opened Api

  /** The page size the list asks the API for. */
  const PAGE_SIZE := 10

  const LOAD_FAILED := "Failed to load products"
  const QUANTITY_SAVED := "Quantity updated successfully"
  const UPDATE_FAILED := "Failed to update quantity"

  /**
   * The stock filter. The select offers 'all' and 'low-stock'; any value
   * other than 'low-stock' narrows nothing, so it behaves as `All`.
   */
  datatype FilterMode = All | LowStock

  /** The search term occurs in the name or in the SKU, both sides lower-cased. */
  function MatchesSearch(p: Product, term: string): (r: bool)
    ensures r <==> Occurs(Lower(p.name), Lower(term)) || Occurs(Lower(p.sku), Lower(term))
  {
    Contains(Lower(p.name), Lower(term)) || Contains(Lower(p.sku), Lower(term))
  }

  /** A fetched product is shown: it matches the search and, under `LowStock`, is low on stock. */
  predicate IsVisible(p: Product, term: string, mode: FilterMode) {
    MatchesSearch(p, term) && (mode == LowStock ==> IsLowStock(p))
  }

  /**
   * The rows the table shows: exactly the fetched products that are
   * visible, in the order the API returned them.
   */
  function VisibleRows(ps: seq<Product>, term: string, mode: FilterMode): (r: seq<Product>)
    ensures IsSubsequence(r, ps)
    ensures forall i :: 0 <= i < |r| ==> r[i] in ps && IsVisible(r[i], term, mode)
    ensures forall i :: 0 <= i < |ps| && IsVisible(ps[i], term, mode) ==> ps[i] in r
    ensures forall x {:trigger multiset(r)[x]} :: multiset(r)[x] == if IsVisible(x, term, mode) then multiset(ps)[x] else 0
  {
    Filter(ps, (p: Product) => IsVisible(p, term, mode))
  }

  /** With an empty search box and the 'all' filter, every fetched product is shown, in order. */
  lemma EmptySearchShowsAll(ps: seq<Product>)
    ensures VisibleRows(ps, "", All) == ps
  {
    forall i | 0 <= i < |ps|
      ensures IsVisible(ps[i], "", All)
    {
      ContainsEmpty(Lower(ps[i].name));
    }
    FilterKeepsAll(ps, (p: Product) => IsVisible(p, "", All));
  }

  /** Search ignores case: two terms that lower-case alike show the same rows. */
  lemma SearchIgnoresCase(ps: seq<Product>, t1: string, t2: string, mode: FilterMode)
    requires Lower(t1) == Lower(t2)
    ensures VisibleRows(ps, t1, mode) == VisibleRows(ps, t2, mode)
  {
    FilterAgreeing(ps, (p: Product) => IsVisible(p, t1, mode), (p: Product) => IsVisible(p, t2, mode));
  }

  /** The 'low-stock' view is the 'all' view for the same search, narrowed to the products under ten units. */
  lemma LowStockNarrowsAll(ps: seq<Product>, term: string)
    ensures VisibleRows(ps, term, LowStock) == Filter(VisibleRows(ps, term, All), IsLowStock)
  {
    FilterOfFilter(ps, (p: Product) => IsVisible(p, term, All), IsLowStock, (p: Product) => IsVisible(p, term, LowStock));
  }

  /** The search is a substring search: a term matches a product whose name contains it. */
  lemma SearchFindsNameInfix(p: Product, prefix: string, term: string, suffix: string)
    requires Lower(p.name) == prefix + Lower(term) + suffix
    ensures IsVisible(p, term, All)
  {
    assert OccursAt(Lower(p.name), Lower(term), |prefix|);
  }

  /**
   * `Math.ceil(total / 10)`: the fewest pages of ten that hold `total`
   * products (0 for an empty store).
   */
  function PageCount(total: int): (r: int)
    ensures r * PAGE_SIZE >= total && (r - 1) * PAGE_SIZE < total
  {
    -((-total) / PAGE_SIZE)
  }

  /** The Previous button's target: one page back, never below page 1. */
  function Previous(current: int): (r: int)
    ensures r >= 1
    ensures current >= 1 ==> r <= current
    ensures current > 1 ==> r == current - 1
    ensures current <= 1 ==> r == 1
  {
    if current - 1 >= 1 then current - 1 else 1
  }

  /** The Next button's target: one page on, never past the last page. */
  function Next(current: int, totalPages: int): (r: int)
    ensures r <= totalPages
    ensures 1 <= current <= totalPages ==> current <= r
    ensures current < totalPages ==> r == current + 1
    ensures current >= totalPages ==> r == totalPages
  {
    if current + 1 <= totalPages then current + 1 else totalPages
  }

  /** The rows after a fetch: the fetched page when the API answered, the old rows otherwise. */
  function RowsAfter(rows: seq<Product>, response: Option<ProductListing>): (r: seq<Product>)
    ensures response.Some? ==> r == response.value.products
    ensures response.None? ==> r == rows
  {
    if response.Some? then response.value.products else rows
  }

  /** The page count after a fetch: from the reported total when the API answered, unchanged otherwise. */
  function PagesAfter(pages: int, response: Option<ProductListing>): (r: int)
    ensures response.Some? ==> r * PAGE_SIZE >= response.value.total > (r - 1) * PAGE_SIZE
    ensures response.None? ==> r == pages
  {
    if response.Some? then PageCount(response.value.total) else pages
  }

  /** The toasts a fetch adds: none when the API answered, one error otherwise. */
  function LoadToasts(response: Option<ProductListing>): (r: seq<Toast>)
    ensures response.Some? <==> r == []
    ensures response.None? ==> r == [ToastError(LOAD_FAILED)]
  {
    if response.Some? then [] else [ToastError(LOAD_FAILED)]
  }

  /**
   * The page's state. `requests` logs the API calls in the order made and
   * `toasts` the notifications shown; each API answer is a parameter of the
   * handler that awaits it (`None` when the call failed).
   */
  class ProductsPage {
    var products: seq<Product>
    var loading: bool
    var currentPage: int
    var totalPages: int
    var searchTerm: string
    var filter: FilterMode
    var requests: seq<Request>
    var toasts: seq<Toast>

    /** The page cursor never drops below page 1. */
    ghost predicate Valid()
      reads this
    {
      currentPage >= 1
    }

    /** The initial state, before the mount effect's fetch. */
    constructor()
      ensures Valid()
      ensures products == [] && loading && currentPage == 1 && totalPages == 1
      ensures searchTerm == "" && filter == All && requests == [] && toasts == []
    {
      products, loading, currentPage, totalPages := [], true, 1, 1;
      searchTerm, filter, requests, toasts := "", All, [], [];
    }

    /** The rows on screen. */
    function Visible(): seq<Product>
      reads this
    {
      VisibleRows(products, searchTerm, filter)
    }

    /** The pagination bar is rendered: the page is loaded, some row is shown and there is more than one page. */
    predicate PaginationShown()
      reads this
    {
      !loading && |Visible()| > 0 && totalPages > 1
    }

    /**
     * `fetchProducts`: ask for the current page of ten; on an answer, show
     * its products and derive the page count from its total; on a failure,
     * keep the old rows and show an error. Loading ends either way.
     */
    method FetchProducts(response: Option<ProductListing>)
      requires Valid()
      modifies this
      ensures Valid()
      ensures requests == old(requests) + [GetAll(currentPage, PAGE_SIZE)]
      ensures products == RowsAfter(old(products), response)
      ensures totalPages == PagesAfter(old(totalPages), response)
      ensures toasts == old(toasts) + LoadToasts(response)
      ensures !loading
      ensures currentPage == old(currentPage) && searchTerm == old(searchTerm) && filter == old(filter)
    {
      loading := true;
      requests := requests + [GetAll(currentPage, PAGE_SIZE)];
      if response.Some? {
        products := response.value.products;
        totalPages := PageCount(response.value.total);
      } else {
        toasts := toasts + [ToastError(LOAD_FAILED)];
      }
      loading := false;
    }

    /** Typing in the search box: only the client-side narrowing changes; nothing is fetched. */
    method SetSearchTerm(term: string)
      modifies this
      ensures searchTerm == term
      ensures products == old(products) && loading == old(loading) && currentPage == old(currentPage)
      ensures totalPages == old(totalPages) && filter == old(filter)
      ensures requests == old(requests) && toasts == old(toasts)
    {
      searchTerm := term;
    }

    /**
     * Choosing a stock filter. A new value re-runs the effect that fetches
     * the current page; choosing the value already set changes nothing.
     */
    method SetFilter(mode: FilterMode, response: Option<ProductListing>)
      requires Valid()
      modifies this
      ensures Valid()
      ensures filter == mode
      ensures currentPage == old(currentPage) && searchTerm == old(searchTerm)
      ensures mode == old(filter) ==>
        requests == old(requests) && products == old(products) && totalPages == old(totalPages)
        && toasts == old(toasts) && loading == old(loading)
      ensures mode != old(filter) ==>
        requests == old(requests) + [GetAll(currentPage, PAGE_SIZE)]
        && products == RowsAfter(old(products), response)
        && totalPages == PagesAfter(old(totalPages), response)
        && toasts == old(toasts) + LoadToasts(response) && !loading
    {
      if mode != filter {
        filter := mode;
        FetchProducts(response);
      }
    }

    /**
     * The Previous button (rendered only with the pagination bar): move
     * one page back, never below 1, and fetch that page if the cursor moved.
     */
    method GoToPrevious(response: Option<ProductListing>)
      requires Valid() && PaginationShown()
      modifies this
      ensures Valid()
      ensures currentPage == Previous(old(currentPage))
      ensures searchTerm == old(searchTerm) && filter == old(filter)
      ensures currentPage == old(currentPage) ==>
        requests == old(requests) && products == old(products) && totalPages == old(totalPages)
        && toasts == old(toasts) && loading == old(loading)
      ensures currentPage != old(currentPage) ==>
        requests == old(requests) + [GetAll(currentPage, PAGE_SIZE)]
        && products == RowsAfter(old(products), response)
        && totalPages == PagesAfter(old(totalPages), response)
        && toasts == old(toasts) + LoadToasts(response) && !loading
    {
      var target := Previous(currentPage);
      if target != currentPage {
        currentPage := target;
        FetchProducts(response);
      }
    }

    /**
     * The Next button (rendered only with the pagination bar): move one
     * page on, never past the last page, and fetch that page if the cursor
     * moved.
     */
    method GoToNext(response: Option<ProductListing>)
      requires Valid() && PaginationShown()
      modifies this
      ensures Valid()
      ensures currentPage == Next(old(currentPage), old(totalPages))
      ensures searchTerm == old(searchTerm) && filter == old(filter)
      ensures currentPage == old(currentPage) ==>
        requests == old(requests) && products == old(products) && totalPages == old(totalPages)
        && toasts == old(toasts) && loading == old(loading)
      ensures currentPage != old(currentPage) ==>
        requests == old(requests) + [GetAll(currentPage, PAGE_SIZE)]
        && products == RowsAfter(old(products), response)
        && totalPages == PagesAfter(old(totalPages), response)
        && toasts == old(toasts) + LoadToasts(response) && !loading
    {
      var target := Next(currentPage, totalPages);
      if target != currentPage {
        currentPage := target;
        FetchProducts(response);
      }
    }

    /**
     * `handleQuantityUpdate`: send the new quantity; when the API accepts
     * it, show a success toast and re-fetch the current page (whose answer
     * is `refetch`); when it refuses, show an error and fetch nothing.
     */
    method HandleQuantityUpdate(productId: int, quantity: int, accepted: bool, refetch: Option<ProductListing>)
      requires Valid()
      modifies this
      ensures Valid()
      ensures currentPage == old(currentPage) && searchTerm == old(searchTerm) && filter == old(filter)
      ensures accepted ==>
        requests == old(requests) + [UpdateQuantity(productId, quantity), GetAll(currentPage, PAGE_SIZE)]
        && toasts == old(toasts) + [ToastSuccess(QUANTITY_SAVED)] + LoadToasts(refetch)
        && products == RowsAfter(old(products), refetch)
        && totalPages == PagesAfter(old(totalPages), refetch)
        && !loading
      ensures !accepted ==>
        requests == old(requests) + [UpdateQuantity(productId, quantity)]
        && toasts == old(toasts) + [ToastError(UPDATE_FAILED)]
        && products == old(products) && totalPages == old(totalPages) && loading == old(loading)
    {
      requests := requests + [UpdateQuantity(productId, quantity)];
      if accepted {
        toasts := toasts + [ToastSuccess(QUANTITY_SAVED)];
        FetchProducts(refetch);
      } else {
        toasts := toasts + [ToastError(UPDATE_FAILED)];
      }
    }
  }

  /**
   * The inline editor of one row's quantity. It starts out showing the
   * product's quantity; while editing, the input holds a whole number.
   */
  class QuantityEditor {
    const product: Product
    var editing: bool
    var quantity: int

    constructor(p: Product)
      ensures product == p && !editing && quantity == p.quantity
    {
      product := p;
      editing := false;
      quantity := p.quantity;
    }

    /** The edit button: open the input with the quantity as it stands. */
    method StartEditing()
      requires !editing
      modifies this
      ensures editing && quantity == old(quantity)
    {
      editing := true;
    }

    /**
     * Typing in the number input: `parseInt(value) || 0`. A negative entry
     * is kept as typed; a text without a leading whole number gives 0.
     */
    method Input(value: string)
      requires editing
      modifies this
      ensures editing && quantity == IntOrZero(value)
    {
      quantity := IntOrZero(value);
    }

    /**
     * Save: hand the entered quantity to the page's update handler for
     * this product (exactly one update request) and close the input.
     */
    method Save(page: ProductsPage, accepted: bool, refetch: Option<ProductListing>)
      requires editing && page.Valid()
      modifies this, page
      ensures !editing && quantity == old(quantity)
      ensures page.Valid()
      ensures page.currentPage == old(page.currentPage) && page.searchTerm == old(page.searchTerm)
      ensures page.filter == old(page.filter)
      ensures accepted ==>
        page.requests == old(page.requests) + [UpdateQuantity(product.id, quantity), GetAll(page.currentPage, PAGE_SIZE)]
        && page.toasts == old(page.toasts) + [ToastSuccess(QUANTITY_SAVED)] + LoadToasts(refetch)
        && page.products == RowsAfter(old(page.products), refetch)
        && page.totalPages == PagesAfter(old(page.totalPages), refetch)
        && !page.loading
      ensures !accepted ==>
        page.requests == old(page.requests) + [UpdateQuantity(product.id, quantity)]
        && page.toasts == old(page.toasts) + [ToastError(UPDATE_FAILED)]
        && page.products == old(page.products) && page.totalPages == old(page.totalPages)
        && page.loading == old(page.loading)
    {
      page.HandleQuantityUpdate(product.id, quantity, accepted, refetch);
      editing := false;
    }

    /** Cancel: close the input. The entered quantity is kept and nothing is sent. */
    method Cancel()
      requires editing
      modifies this
      ensures !editing && quantity == old(quantity)
    {
      editing := false;
    }
  }
}
