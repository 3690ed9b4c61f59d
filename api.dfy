/**
 * What the client pages exchange with the outside world: the requests they
 * send to the product API (kept as a log, in the order sent), the toast
 * notifications they show, and the body of a product creation request.
 * Each answer the API gives is passed to a page's handler as a parameter.
 */
module Api {
  import opened Schemas

  /**
   * The add-product form's fields as they are held and sent: free text
   * for the strings, numbers for quantity and price (`kind` is the `type`
   * field).
   */
  datatype ProductForm = ProductForm(
    name: string,
    kind: string,
    sku: string,
    imageUrl: string,
    description: string,
    quantity: real,
    price: real)

  /** A call a page makes on the product API. */
  datatype Request =
    | GetAll(page: int, perPage: int)
    | UpdateQuantity(productId: int, quantity: int)
    | Create(form: ProductForm)

  /** A toast notification. */
  datatype Toast = ToastSuccess(message: string) | ToastError(message: string)

  /** Quantities below this many units count as low stock. */
  const LOW_STOCK_THRESHOLD := 10

  predicate IsLowStock(p: Product) {
    p.quantity < LOW_STOCK_THRESHOLD
  }
}
