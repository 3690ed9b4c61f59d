# Inventory management: a Dafny model

This project models the core of a small inventory-management system. The
server is a FastAPI application over a SQL table of products and users. The
client has three React pages that talk to it.

- **Server store** (`app/main.py`, class `Store.Inventory`). These are the
  handlers that register a user, add a product, update a product's
  quantity, list one page of products and fetch one product. They run over
  an in-memory table whose rows are kept in insertion order, and ids are
  handed out from 1 upwards.
- **Schemas** (`app/schemas.py`, module `Schemas`). These are the request
  and record shapes and their field constraints. The framework refuses a
  body that breaks a constraint (422) before any handler runs, so the
  constraints are preconditions of the store's methods. `Violations` lists
  the constraints a body breaks.
- **Product list page** (`Products.js`, module `ProductList`). This page
  does the client-side search and stock filter over the fetched page, the
  page count and the Previous/Next cursor. It is the class `ProductsPage`,
  and the inline editor of each row's quantity is the class
  `QuantityEditor`.
- **Add-product page** (`AddProduct.js`, module `AddProductPage`). This page
  coerces the form fields as they are typed and checks the form, stopping
  at the first broken rule. Submission is the class `AddProductForm`.
- **Dashboard** (`Dashboard.js`, module `DashboardPage`). This page computes
  the total value and low-stock count of the first page of five products,
  and takes the product count from the server's total.

The JavaScript operations the pages rely on are modelled on strings:
`toLowerCase`, `includes`, `trim`, `parseInt(..) || 0` and
`parseFloat(..) || 0` (modules `Text` and `Numbers`).

Pages record their side effects in fields:

- every API call made goes into the `requests` log, in order;
- every toast shown goes into `toasts`;
- every route navigated to goes into `navigations`.

The answer to an API call is a parameter of the handler that awaits it.
`None` or `Refused` stands for a failed call. Each handler runs to
completion as one step.

Some behaviours are worth knowing:

- The quantity editor stores `parseInt(value) || 0`. A negative entry is
  kept as typed, not clamped, and it is the server that refuses it.
- Cancel leaves edit mode but keeps the entered quantity in the editor.
- Changing the filter to the value it already has, or pressing
  Previous/Next at the end of the range, leaves the state as it was. No
  fetch happens, because the effect depends on `currentPage` and `filter`
  and neither changed.
- The add-product check does not enforce the schema's upper length bounds
  (`LongNamePassesPageCheck`). The server enforces them.
- The dashboard's low-stock count and value cover only the five products
  it fetches. The product count is the server's total
  (`EndToEnd.DashboardOverStore`).

The quantity input carries `min="0"` (`Products.js:67`). That attribute is
a hint to the browser's spinner and form validation; the change handler
does not clamp, so a typed negative number reaches the state and the
update request as it is.

## Model

| member | source | states |
|---|---|---|
| Seqs.Filter | frontend/src/pages/Products.js:42-51 | `Array.prototype.filter`: the result keeps exactly the elements satisfying the predicate, in their original order (a subsequence), and each kept element as many times as it occurs in the input. |
| Seqs.FilterAppend | frontend/src/pages/Dashboard.js:26 | Filtering a concatenation is concatenating the filtered parts. |
| Seqs.FilterOfFilter | frontend/src/pages/Products.js:46-48 | Filtering twice equals filtering once by the conjunction. |
| Seqs.FilterKeepsAll | frontend/src/pages/Products.js:50 | Filtering by a predicate every element satisfies returns the input unchanged. |
| Seqs.FilterAgreeing | frontend/src/pages/Products.js:43-44 | Predicates that agree on every element select the same elements. |
| Seqs.IndexOfFirst | app/main.py:58 | `.first()` of a filtered query: the index of the first match, and no match exactly when no element satisfies the predicate. |
| Text.LowerChar | frontend/src/pages/Products.js:43 | `toLowerCase` on one character: ASCII capitals move down by 32 and every other character is unchanged. |
| Text.Lower | frontend/src/pages/Products.js:43-44 | `toLowerCase`: same length, lower-cased character by character. |
| Text.LowerIdempotent | frontend/src/pages/Products.js:43-44 | Lower-casing twice is lower-casing once. |
| Text.Contains | frontend/src/pages/Products.js:43-44 | `includes` holds exactly when the needle occurs at some position of the hay. |
| Text.ContainsEmpty | frontend/src/pages/Products.js:43-44 | The empty search term is found in every string. |
| Text.TrimStart | frontend/src/pages/AddProduct.js:29 | Leading white space is removed. The result is a suffix that does not start with white space. |
| Text.TrimEnd | frontend/src/pages/AddProduct.js:29 | Trailing white space is removed. The result is a prefix that does not end with white space. |
| Text.TrimStartEmptyIffAllSpace | frontend/src/pages/AddProduct.js:29 | `trimStart` empties exactly the all-white-space strings. |
| Text.Trim | frontend/src/pages/AddProduct.js:29-37 | `trim()` is "" exactly for all-white-space strings (so `!s.trim()` means blank). Otherwise the trimmed text starts and ends with a non-space character. It is never longer than the input. |
| Text.TrimIsTrimStartThenEnd | frontend/src/pages/AddProduct.js:29-37 | Trimming both ends one character at a time gives the same text as `trimStart` followed by `trimEnd`. |
| Text.TrimIsMiddle | frontend/src/pages/AddProduct.js:29-37 | The trimmed text is the slice of the input that starts where `trimStart` stops, with only white space before and after it. |
| Numbers.DigitRun | frontend/src/pages/Products.js:69 | The longest prefix of digits in the radix. |
| Numbers.ParseIntReadsNumeral | frontend/src/pages/Products.js:69 | `parseInt` (modelled by `ParseInt`) reads back any integer written in decimal when the text after it does not start with a digit. When the numeral is a bare `0`, the next character must also not be `x` or `X`, since `0x` starts a hexadecimal numeral. |
| Numbers.IntOrZeroWithoutDigits | frontend/src/pages/Products.js:69 | `parseInt(v) \|\| 0` (modelled by `IntOrZero`) is 0 for input with no digit. |
| Numbers.ParseFloatReadsInteger | frontend/src/pages/AddProduct.js:24 | `parseFloat` (modelled by `ParseFloat`) reads back any integer written in decimal. |
| Numbers.ParseFloatReadsDecimal | frontend/src/pages/AddProduct.js:24 | `parseFloat` reads `whole.fraction` as `whole + fraction / 10^len`. |
| Numbers.NumberOrZeroWithoutDigits | frontend/src/pages/AddProduct.js:24 | `parseFloat(v) \|\| 0` (modelled by `NumberOrZero`) is 0 for input with no digit. |
| Numbers.NatToStringDenotes | frontend/src/pages/Products.js:69 | A decimal numeral consists of digits whose value is the number. |
| Schemas.Violations | app/schemas.py:7-37 | The predicates `ValidUserCreate`, `ValidProductCreate`, `ValidProductUpdate` and `ValidProduct` state the field constraints. The list of broken product constraints is empty exactly for a valid body. Each constraint (name 1..100, type and SKU 1..50, quantity >= 0, price > 0) is listed exactly when broken. |
| Schemas.Stored | app/main.py:123 | The stored record of a valid body is a valid product. |
| Store.Window | app/main.py:183 | `.offset(o).limit(n)`: at most `n` rows; none when `o` is past the end, otherwise `min(n, size - o)`; row `k` of the window is row `o + k` of the table. |
| Store.Listing | app/main.py:177-190 | The listing skips `(page-1)*per_page` rows and returns the contiguous run of at most `per_page` rows after them, in table order. Its total is the whole table's size, and it echoes page and per_page. |
| Store.ListingReachesEveryRow | app/main.py:177-183 | Row `i` is entry `i % per_page` of page `i / per_page + 1`. |
| Store.Inventory.constructor | app/main.py:18-19 | A fresh database: no products and no users, both id counters at 1, and the table invariants hold. |
| Store.Inventory.RegisterUser | app/main.py:49-72 | Fails with 409 exactly when the username is taken, changing nothing, not even the id counter. Otherwise it appends the user under the next id and advances the counter. Usernames stay unique. |
| Store.Inventory.AddProduct | app/main.py:97-128 | Fails with 409 exactly when the SKU exists, leaving the store and its id counter unchanged. Otherwise it appends exactly one product with the submitted fields under a fresh id and advances the counter. SKUs stay unique. |
| Store.Inventory.UpdateProductQuantity | app/main.py:130-161 | Fails with 404 exactly when no product has the id, changing nothing. Otherwise only that product's quantity changes and the response carries its id, name and new quantity. |
| Store.Inventory.GetProducts | app/main.py:163-190 | Returns `Listing` of the table, so at most `per_page` rows and the full count. Requires page >= 1 and 1 <= per_page <= 100. |
| Store.Inventory.GetProduct | app/main.py:192-210 | Fails with 404 exactly when no product has the id. Otherwise it returns a stored product with that id. |
| ProductList.MatchesSearch | frontend/src/pages/Products.js:43-44 | The lower-cased term occurs in the lower-cased name or in the lower-cased SKU. |
| ProductList.VisibleRows | frontend/src/pages/Products.js:42-51 | The shown rows are exactly the fetched products that pass `IsVisible`: they match the search and, under low-stock, have quantity < 10. They form a subsequence in the original order, and each shown product appears as often as it was fetched. |
| ProductList.EmptySearchShowsAll | frontend/src/pages/Products.js:42-51 | With an empty search and 'all', the shown rows equal the fetched products. |
| ProductList.SearchIgnoresCase | frontend/src/pages/Products.js:43-44 | Terms that lower-case alike show the same rows. |
| ProductList.LowStockNarrowsAll | frontend/src/pages/Products.js:46-50 | The low-stock view is the 'all' view narrowed to quantity < 10. |
| ProductList.SearchFindsNameInfix | frontend/src/pages/Products.js:43 | A product whose lower-cased name contains the lower-cased term is shown. |
| ProductList.PageCount | frontend/src/pages/Products.js:24 | `Math.ceil(total/10)`: the smallest page count whose pages of ten hold `total`. |
| ProductList.Previous | frontend/src/pages/Products.js:248 | `max(1, page-1)`: at least 1 and never after the current page. |
| ProductList.Next | frontend/src/pages/Products.js:255 | `min(totalPages, page+1)`: at most the page count and never before a current page in range. |
| ProductList.PagesAfter | frontend/src/pages/Products.js:24 | After a fetch the page count is the ceiling of total/10, or the old count if it failed. |
| ProductList.ProductsPage.constructor | frontend/src/pages/Products.js:8-13 | The page starts at page 1 of 1, with no rows, an empty search, 'all', and loading. |
| ProductList.ProductsPage.FetchProducts | frontend/src/pages/Products.js:19-30 | Requests the current page of ten. On success the rows and page count come from the answer. On failure both stay and an error toast is shown. Loading ends either way. |
| ProductList.ProductsPage.SetSearchTerm | frontend/src/pages/Products.js:141 | Only the search term changes. Nothing is fetched. |
| ProductList.ProductsPage.SetFilter | frontend/src/pages/Products.js:15-17 | A new filter value triggers one fetch of the current page. The same value changes nothing. |
| ProductList.ProductsPage.GoToPrevious | frontend/src/pages/Products.js:248 | The cursor becomes `max(1, page-1)` and stays at least 1. The page is fetched only if the cursor moved. |
| ProductList.ProductsPage.GoToNext | frontend/src/pages/Products.js:255 | The cursor becomes `min(totalPages, page+1)`. The page is fetched only if the cursor moved. |
| ProductList.ProductsPage.HandleQuantityUpdate | frontend/src/pages/Products.js:32-40 | Sends one update. On success it shows a toast and then re-fetches the current page. On failure it shows an error and fetches nothing. |
| ProductList.QuantityEditor.constructor | frontend/src/pages/Products.js:54-55 | The editor starts closed, holding the product's quantity. |
| ProductList.QuantityEditor.StartEditing | frontend/src/pages/Products.js:98 | Opens the input with the held quantity. |
| ProductList.QuantityEditor.Input | frontend/src/pages/Products.js:69 | The held quantity becomes `parseInt(value) \|\| 0`, with no clamping. |
| ProductList.QuantityEditor.Save | frontend/src/pages/Products.js:57-60 | Exactly one update `(product.id, quantity)` is sent. A re-fetch follows only on success and leaves the page not loading; a refusal leaves the page's loading flag as it was. Edit mode ends either way. |
| ProductList.QuantityEditor.Cancel | frontend/src/pages/Products.js:79 | Edit mode ends and nothing is sent. |
| AddProductPage.InitialForm | frontend/src/pages/AddProduct.js:9-17 | The form starts with empty texts and zero numbers. |
| AddProductPage.ChangeField | frontend/src/pages/AddProduct.js:20-26 | Only the named field changes. Quantity and price take `parseFloat(v) \|\| 0` and the others take the raw text. |
| AddProductPage.ChangeFieldReadsDecimal | frontend/src/pages/AddProduct.js:24 | A typed decimal is stored as its value. |
| AddProductPage.ChangeFieldReadsInteger | frontend/src/pages/AddProduct.js:24 | A typed integer is stored as its value. |
| AddProductPage.ChangeFieldWithoutDigits | frontend/src/pages/AddProduct.js:24 | Digit-free input in a number field stores 0. |
| AddProductPage.Validate | frontend/src/pages/AddProduct.js:28-50 | Rules are checked in order: name, type, SKU not blank, price > 0, quantity >= 0. The verdict is the first broken rule, and the form passes exactly when all five hold. |
| AddProductPage.RuleMessage | frontend/src/pages/AddProduct.js:30-46 | Every broken rule has a non-empty message. |
| AddProductPage.RuleMessageInjective | frontend/src/pages/AddProduct.js:30-46 | Different broken rules have different messages. |
| AddProductPage.InitialFormNeedsName | frontend/src/pages/AddProduct.js:9-32 | The initial form fails on the name rule. |
| AddProductPage.PassedFormMeetsSchemaMinimums | frontend/src/pages/AddProduct.js:28-50 | A passing form has a non-empty name, type and SKU, a positive price and a non-negative quantity. |
| AddProductPage.LongNamePassesPageCheck | frontend/src/pages/AddProduct.js:29-32 | A 101-character name passes the page's check although the schema's 1..100 bound refuses it. |
| AddProductPage.ErrorMessage | frontend/src/pages/AddProduct.js:64 | The message is the server's non-empty detail, or else 'Failed to add product'. It is never empty. |
| AddProductPage.AddProductForm.constructor | frontend/src/pages/AddProduct.js:9-18 | The page starts with the initial form, not loading, and no calls. |
| AddProductPage.AddProductForm.HandleChange | frontend/src/pages/AddProduct.js:20-26 | The form becomes `ChangeField` of the old form. Nothing else changes. |
| AddProductPage.AddProductForm.HandleSubmit | frontend/src/pages/AddProduct.js:52-69 | An invalid form shows its rule's message and sends nothing. A valid form sends one create with the form as it stands. Success shows a toast and navigates to /products. A refusal shows `ErrorMessage`. Loading ends false and the form is unchanged. |
| DashboardPage.FoldValueIsSum | frontend/src/pages/Dashboard.js:25 | The `reduce` (modelled by `FoldValue`) from `acc` equals `acc` plus the sum of price times quantity. |
| DashboardPage.TotalValue | frontend/src/pages/Dashboard.js:25 | The total value is the sum of price times quantity, and 0 for no products. |
| DashboardPage.TotalValueAppend | frontend/src/pages/Dashboard.js:25 | The total value is additive over concatenation. |
| DashboardPage.TotalValueNonNegative | frontend/src/pages/Dashboard.js:25 | Schema-valid products have a non-negative total value. |
| DashboardPage.FilterLengthIsCount | frontend/src/pages/Dashboard.js:26 | Filtering a batch by `IsLowStock` keeps exactly `CountLow` products, the count taken one product at a time. |
| DashboardPage.LowStockCount | frontend/src/pages/Dashboard.js:26 | The number of products under 10 units (`IsLowStock`) equals `CountLow`. It is at most the batch size, and 0 exactly when none is low. |
| DashboardPage.LowStockCountAppend | frontend/src/pages/Dashboard.js:26 | The low-stock count is additive over concatenation. |
| DashboardPage.PageStats | frontend/src/pages/Dashboard.js:28-32 | The product count is the server's total, not the page length. The low-stock count is `CountLow` of the page's products, so at most the page length, and the value is the page's sum. |
| DashboardPage.Dashboard.constructor | frontend/src/pages/Dashboard.js:8-14 | The figures start at zero, with no recent products, and loading. |
| DashboardPage.Dashboard.FetchDashboardData | frontend/src/pages/Dashboard.js:20-40 | Requests page 1 of five. On success the figures and recent products come from the answer. On failure they keep their values (zeros on first load) and an error toast is shown. |
| EndToEnd.DashboardOverStore | frontend/src/pages/Dashboard.js:22-32 | Over the server's table, the dashboard covers the first five rows. The count is the table size, low stock is at most 5, and the value is non-negative. |
| EndToEnd.LowStockCountIsLowStockView | frontend/src/pages/Dashboard.js:26 | The dashboard's low-stock count equals the number of rows the list's low-stock view shows with no search. |
| EndToEnd.EveryRowOnSomeListPage | frontend/src/pages/Products.js:22-24 | Every row of the server's table is on a list page between 1 and `ceil(total/10)`, at position `i % 10`. |
| EndToEnd.TotalValueExample | frontend/src/pages/Dashboard.js:25 | 10 × 2 plus 5 × 3 gives 35. |
| EndToEnd.PageStatsExample | frontend/src/pages/Dashboard.js:28-32 | One product of 5 units at 10 gives the figures (1, 1, 50). |

## Left out

- Authentication is not modelled: the login endpoint, JWT tokens, the current-user dependency and password hashing. The hash is a parameter of `RegisterUser`.
- The root information endpoint is not modelled, because it only returns fixed text.
- The `created_at` and `updated_at` timestamps are not modelled, because they come from the clock.
- SQL sessions, commits, CORS and HTTP transport are not modelled. The database is the `Inventory` object. `Base.metadata.create_all` (`app/main.py:19`) keeps the rows of an existing database; the model starts from a fresh, empty one, and every property proved about the methods holds from any state satisfying the table invariants.
- `app/models.py` and `app/database.py` are not part of this model. The stored records follow the schemas' fields.
- The 422 validation of request bodies and query parameters is done by the framework before a handler runs. Here it is each store method's precondition, and `Violations` describes which constraints fail. The shape of the 422 response body is not modelled.
- Rendering, the spinner, icons, links and `StatCard` are not modelled. The rendered conditions that gate user actions are kept: the pagination bar needs rows and more than one page, the submit button needs not-loading, and Save and Cancel need edit mode.
- Asynchronous interleaving is not modelled: two overlapping fetches or saves, and the un-awaited re-fetch after a quantity update. Each handler runs as one atomic step.
- `ProductList.QuantityEditor` is not remounted when the list page re-renders, although the component is declared inside the page. The model keeps one editor per row across re-renders.
- `Text.Lower`, `Text.LowerChar`: lower-case only the ASCII letters and leave every other character unchanged, because `toLowerCase` on other scripts needs the Unicode case tables.
- Row order: `GET /products` pages with `offset`/`limit` and no `ORDER BY` (`app/main.py:183`), so the database promises no order. The model assumes the table's insertion order, which is what `Store.Listing` and `Store.ListingReachesEveryRow` rely on.
- The query defaults `page=1` and `per_page=10` (`app/main.py:167-168`) are not modelled: `GetProducts` takes both values explicitly, and every page of the client passes both.
- `Numbers.ParseFloat` does not read `Infinity`. A number input never yields it.
- Numbers are exact: prices are `real` and integers are unbounded. Binary floating point rounding, the 2^53 integer limit of JavaScript numbers and the display formatting of prices are not modelled.
