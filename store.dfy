/**
 * The inventory server's request handlers over an in-memory table of
 * products and users that stands in for the database. Rows keep the order
 * in which they were inserted, and ids are handed out in increasing order
 * from 1, as an auto-increment key would.
 */
module Store {
  import opened Wrappers
  import opened Seqs
  import opened Schemas

  /** A registered user; the password is kept only as its hash. */
  datatype User = User(id: int, username: string, hashedPassword: string)

  /** Answer to a successful registration. */
  datatype Registration = Registration(message: string, userId: int)

  /** The errors the handlers raise: 409 Conflict and 404 Not Found, with their detail text. */
  datatype ApiError = Conflict(detail: string) | NotFound(detail: string)

  const USERNAME_TAKEN := "Username already registered"
  const SKU_TAKEN := "Product with this SKU already exists"
  const PRODUCT_NOT_FOUND := "Product not found"
  const USER_REGISTERED := "User registered successfully"
  const PRODUCT_ADDED := "Product added successfully"
  const QUANTITY_UPDATED := "Product quantity updated successfully"

  /** Some product in `ps` has this SKU. */
  predicate SkuTaken(ps: seq<Product>, sku: string) {
    exists i :: 0 <= i < |ps| && ps[i].sku == sku
  }

  /** Some product in `ps` has this id. */
  predicate HasId(ps: seq<Product>, id: int) {
    exists i :: 0 <= i < |ps| && ps[i].id == id
  }

  /** Some user in `us` has this username. */
  predicate UsernameTaken(us: seq<User>, username: string) {
    exists i :: 0 <= i < |us| && us[i].username == username
  }

  /** No two products share a SKU. */
  predicate SkusUnique(ps: seq<Product>) {
    forall i, j :: 0 <= i < j < |ps| ==> ps[i].sku != ps[j].sku
  }

  /** No two users share a username. */
  predicate UsernamesUnique(us: seq<User>) {
    forall i, j :: 0 <= i < j < |us| ==> us[i].username != us[j].username
  }

  /**
   * The product table: every row satisfies the product schema, SKUs are
   * unique, and ids increase along the table and stay in `[1, nextId)`.
   */
  predicate ProductTable(ps: seq<Product>, nextId: int) {
    nextId >= 1
    && (forall i :: 0 <= i < |ps| ==> ValidProduct(ps[i]) && 1 <= ps[i].id < nextId)
    && (forall i, j :: 0 <= i < j < |ps| ==> ps[i].id < ps[j].id)
    && SkusUnique(ps)
  }

  /**
   * The user table: usernames satisfy the schema's length bounds and are
   * unique, and ids increase along the table and stay in `[1, nextId)`.
   */
  predicate UserTable(us: seq<User>, nextId: int) {
    nextId >= 1
    && (forall i :: 0 <= i < |us| ==> LengthWithin(us[i].username, 3, 50) && 1 <= us[i].id < nextId)
    && (forall i, j :: 0 <= i < j < |us| ==> us[i].id < us[j].id)
    && UsernamesUnique(us)
  }

  function Min(a: int, b: int): int {
    if a <= b then a else b
  }

  /**
   * `.offset(offset).limit(limit)`: skip `offset` rows and take at most
   * `limit` of the rest, as one contiguous run in table order.
   */
  function Window(ps: seq<Product>, offset: nat, limit: nat): (r: seq<Product>)
    ensures |r| <= limit
    ensures offset >= |ps| ==> r == []
    ensures offset < |ps| ==> |r| == Min(limit, |ps| - offset)
    ensures forall k :: 0 <= k < |r| ==> r[k] == ps[offset + k]
  {
    var lo := Min(offset, |ps|);
    var hi := Min(offset + limit, |ps|);
    ps[lo..hi]
  }

  /**
   * The page of `GET /products`: skip `(page - 1) * perPage` rows, take at
   * most `perPage`, and report the size of the whole table. The page is the
   * contiguous run of rows starting at the offset, in table order.
   */
  function Listing(ps: seq<Product>, page: int, perPage: int): (r: ProductListing)
    requires page >= 1 && perPage >= 1
    ensures r.total == |ps| && r.page == page && r.perPage == perPage
    ensures |r.products| <= perPage
    ensures (page - 1) * perPage >= |ps| ==> r.products == []
    ensures (page - 1) * perPage < |ps| ==> |r.products| == Min(perPage, |ps| - (page - 1) * perPage)
    ensures forall k :: 0 <= k < |r.products| ==> r.products[k] == ps[(page - 1) * perPage + k]
  {
    ProductListing(Window(ps, (page - 1) * perPage, perPage), |ps|, page, perPage)
  }

  /** Every product shows up on exactly one page: row `i` is entry `i % perPage` of page `i / perPage + 1`. */
  lemma ListingReachesEveryRow(ps: seq<Product>, perPage: int, i: int)
    requires perPage >= 1 && 0 <= i < |ps|
    ensures var r := Listing(ps, i / perPage + 1, perPage);
      i % perPage < |r.products| && r.products[i % perPage] == ps[i]
  {
    var page := i / perPage + 1;
    assert (page - 1) * perPage + i % perPage == i;
  }

  /** The in-memory database behind the API. */
  class Inventory {
    var products: seq<Product>
    var users: seq<User>
    var nextProductId: int
    var nextUserId: int

    ghost predicate Valid()
      reads this
    {
      ProductTable(products, nextProductId) && UserTable(users, nextUserId)
    }

    /** An empty database. */
    constructor()
      ensures Valid() && products == [] && users == []
      ensures nextProductId == 1 && nextUserId == 1
    {
      products, users := [], [];
      nextProductId, nextUserId := 1, 1;
    }

    /** `POST /register`: refuse a taken username with 409, otherwise store the user with the hash of the password. */
    method RegisterUser(u: UserCreate, hashedPassword: string) returns (r: Result<Registration, ApiError>)
      requires Valid() && ValidUserCreate(u)
      modifies this
      ensures Valid()
      ensures products == old(products) && nextProductId == old(nextProductId)
      ensures r.Failure? <==> UsernameTaken(old(users), u.username)
      ensures r.Failure? ==> r.error == Conflict(USERNAME_TAKEN) && users == old(users) && nextUserId == old(nextUserId)
      ensures r.Success? ==>
        r.value == Registration(USER_REGISTERED, old(nextUserId))
        && users == old(users) + [User(old(nextUserId), u.username, hashedPassword)]
        && nextUserId == old(nextUserId) + 1
    {
      var existing := IndexOfFirst(users, (x: User) => x.username == u.username);
      if existing.Some? {
        return Failure(Conflict(USERNAME_TAKEN));
      }
      var user := User(nextUserId, u.username, hashedPassword);
      users := users + [user];
      nextUserId := nextUserId + 1;
      r := Success(Registration(USER_REGISTERED, user.id));
    }

    /** `POST /products`: refuse a taken SKU with 409, otherwise store the product under a fresh id. */
    method AddProduct(p: ProductCreate) returns (r: Result<ProductResponse, ApiError>)
      requires Valid() && ValidProductCreate(p)
      modifies this
      ensures Valid()
      ensures users == old(users) && nextUserId == old(nextUserId)
      ensures r.Failure? <==> SkuTaken(old(products), p.sku)
      ensures r.Failure? ==> r.error == Conflict(SKU_TAKEN) && products == old(products) && nextProductId == old(nextProductId)
      ensures r.Success? ==>
        r.value == ProductResponse(old(nextProductId), PRODUCT_ADDED)
        && !HasId(old(products), old(nextProductId))
        && products == old(products) + [Stored(old(nextProductId), p)]
        && nextProductId == old(nextProductId) + 1
    {
      var existing := IndexOfFirst(products, (x: Product) => x.sku == p.sku);
      if existing.Some? {
        return Failure(Conflict(SKU_TAKEN));
      }
      var product := Stored(nextProductId, p);
      products := products + [product];
      nextProductId := nextProductId + 1;
      r := Success(ProductResponse(product.id, PRODUCT_ADDED));
    }

    /**
     * `PUT /products/{id}/quantity`: 404 for an unknown id; otherwise the
     * product with that id gets the new quantity, and every other product
     * and every other field stays as it was.
     */
    method UpdateProductQuantity(productId: int, update: ProductUpdate) returns (r: Result<QuantityUpdateResponse, ApiError>)
      requires Valid() && ValidProductUpdate(update)
      modifies this
      ensures Valid()
      ensures users == old(users) && nextProductId == old(nextProductId) && nextUserId == old(nextUserId)
      ensures r.Failure? <==> !HasId(old(products), productId)
      ensures r.Failure? ==> r.error == NotFound(PRODUCT_NOT_FOUND) && products == old(products)
      ensures r.Success? ==> |products| == |old(products)|
      ensures r.Success? ==> forall i :: 0 <= i < |products| ==>
        products[i] == if old(products)[i].id == productId
                       then old(products)[i].(quantity := update.quantity)
                       else old(products)[i]
      ensures r.Success? ==>
        exists i :: 0 <= i < |old(products)| && old(products)[i].id == productId &&
          r.value == QuantityUpdateResponse(productId, old(products)[i].name, update.quantity, QUANTITY_UPDATED)
    {
      var found := IndexOfFirst(products, (x: Product) => x.id == productId);
      if found.None? {
        return Failure(NotFound(PRODUCT_NOT_FOUND));
      }
      var k := found.value;
      var updated := products[k].(quantity := update.quantity);
      products := products[k := updated];
      r := Success(QuantityUpdateResponse(productId, updated.name, updated.quantity, QUANTITY_UPDATED));
    }

    /**
     * `GET /products`: the requested page and the size of the whole table.
     * The framework refuses a page below 1 or a page size outside 1..100.
     */
    method GetProducts(page: int, perPage: int) returns (r: ProductListing)
      requires Valid() && page >= 1 && 1 <= perPage <= 100
      ensures r == Listing(products, page, perPage)
      ensures r.total == |products| && |r.products| <= perPage
    {
      r := Listing(products, page, perPage);
    }

    /** `GET /products/{id}`: the product with that id, or 404. */
    method GetProduct(productId: int) returns (r: Result<Product, ApiError>)
      requires Valid()
      ensures r.Failure? <==> !HasId(products, productId)
      ensures r.Failure? ==> r.error == NotFound(PRODUCT_NOT_FOUND)
      ensures r.Success? ==> r.value in products && r.value.id == productId
    {
      var found := IndexOfFirst(products, (x: Product) => x.id == productId);
      if found.None? {
        return Failure(NotFound(PRODUCT_NOT_FOUND));
      }
      r := Success(products[found.value]);
    }
  }
}
