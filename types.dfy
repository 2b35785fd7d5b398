/** Data shapes shared by the point-of-sale page: the product record returned by the
    product lookup, a cart line, and the request/response of the purchase endpoint. */
module PosTypes {

  datatype Option<+T> = None | Some(value: T)

  /** A product as returned by `GET /api/products/{code}`. Prices are whole amounts. */
  datatype Product = Product(prd_id: int, code: string, name: string, price: int)

  /** A cart line: the product fields spread into the line, plus a quantity. */
  datatype CartItem = CartItem(product: Product, quantity: int)

  /** One transaction line as the backend expects it (no quantity field). */
  datatype PurchaseItem = PurchaseItem(prd_id: int, prd_code: string, prd_name: string, prd_price: int)

  /** Body of `POST /api/purchase`. */
  datatype PurchaseRequest = PurchaseRequest(emp_cd: string, store_cd: string, pos_no: string, items: seq<PurchaseItem>)

  /** Body of the purchase endpoint's answer. */
  datatype PurchaseResponse = PurchaseResponse(success: bool, total_amt: int)

  /** What the purchase call produced: the awaited post threw, or it answered. */
  datatype PurchaseOutcome = Threw | Responded(response: PurchaseResponse)
}
