/**
 * The request and record shapes of the inventory API and the field
 * constraints its schemas declare: string lengths, a non-negative
 * quantity and a strictly positive price. A body that breaks any of them
 * is refused with status 422 before a request handler runs.
 */
module Schemas {
  import opened Wrappers

  /** Body of a registration request. */
  datatype UserCreate = UserCreate(username: string, password: string)

  /**
   * Body of a product creation request. `kind` is the product's `type`
   * field; the price is an exact decimal.
   */
  datatype ProductCreate = ProductCreate(
    name: string,
    kind: string,
    sku: string,
    imageUrl: Option<string>,
    description: Option<string>,
    quantity: int,
    price: real)

  /** Body of a quantity update request. */
  datatype ProductUpdate = ProductUpdate(quantity: int)

  /** A stored product as the API returns it: the creation fields plus the server-assigned id. */
  datatype Product = Product(
    id: int,
    name: string,
    kind: string,
    sku: string,
    imageUrl: Option<string>,
    description: Option<string>,
    quantity: int,
    price: real)

  /** Answer to a successful product creation. */
  datatype ProductResponse = ProductResponse(productId: int, message: string)

  /** Answer to a successful quantity update. */
  datatype QuantityUpdateResponse = QuantityUpdateResponse(id: int, name: string, quantity: int, message: string)

  /** One page of the product list, with the number of products in the whole store. */
  datatype ProductListing = ProductListing(products: seq<Product>, total: int, page: int, perPage: int)

  /** A constraint of the product schema that a body can break. */
  datatype Violation =
    | NameLength
    | TypeLength
    | SkuLength
    | NegativeQuantity
    | NonPositivePrice

  /** `s` has between `lo` and `hi` characters. */
  predicate LengthWithin(s: string, lo: nat, hi: nat) {
    lo <= |s| <= hi
  }

  /** Usernames have 3 to 50 characters, passwords 6 to 100. */
  predicate ValidUserCreate(u: UserCreate) {
    LengthWithin(u.username, 3, 50) && LengthWithin(u.password, 6, 100)
  }

  /** A quantity is never negative. */
  predicate ValidQuantity(q: int) {
    q >= 0
  }

  /** A price is strictly positive. */
  predicate ValidPrice(p: real) {
    p > 0.0
  }

  /**
   * The product fields' constraints: name 1..100 characters, type and SKU
   * 1..50 characters each, quantity at least 0, price above 0; the image
   * URL and the description are unconstrained and may be absent.
   */
  predicate ValidFields(name: string, kind: string, sku: string, quantity: int, price: real) {
    LengthWithin(name, 1, 100) && LengthWithin(kind, 1, 50) && LengthWithin(sku, 1, 50)
    && ValidQuantity(quantity) && ValidPrice(price)
  }

  predicate ValidProductCreate(p: ProductCreate) {
    ValidFields(p.name, p.kind, p.sku, p.quantity, p.price)
  }

  predicate ValidProductUpdate(u: ProductUpdate) {
    ValidQuantity(u.quantity)
  }

  predicate ValidProduct(p: Product) {
    ValidFields(p.name, p.kind, p.sku, p.quantity, p.price)
  }

  /**
   * Every constraint a creation body breaks, in field order, as the 422
   * response lists them: the list is empty exactly when the body is valid,
   * and each constraint appears exactly when it is broken.
   */
  function Violations(p: ProductCreate): (r: seq<Violation>)
    ensures r == [] <==> ValidProductCreate(p)
    ensures NameLength in r <==> !LengthWithin(p.name, 1, 100)
    ensures TypeLength in r <==> !LengthWithin(p.kind, 1, 50)
    ensures SkuLength in r <==> !LengthWithin(p.sku, 1, 50)
    ensures NegativeQuantity in r <==> p.quantity < 0
    ensures NonPositivePrice in r <==> p.price <= 0.0
    ensures |r| <= 5
  {
    var name := if LengthWithin(p.name, 1, 100) then [] else [NameLength];
    var kind := if LengthWithin(p.kind, 1, 50) then [] else [TypeLength];
    var sku := if LengthWithin(p.sku, 1, 50) then [] else [SkuLength];
    var quantity := if ValidQuantity(p.quantity) then [] else [NegativeQuantity];
    var price := if ValidPrice(p.price) then [] else [NonPositivePrice];
    var r := name + kind + sku + quantity + price;
    assert forall v :: v in r <==> v in name || v in kind || v in sku || v in quantity || v in price;
    r
  }

  /** The stored record for a creation body and the id the database assigned it; a valid body gives a valid record. */
  function Stored(id: int, p: ProductCreate): (r: Product)
    ensures ValidProductCreate(p) ==> ValidProduct(r)
  {
    Product(id, p.name, p.kind, p.sku, p.imageUrl, p.description, p.quantity, p.price)
  }
}
