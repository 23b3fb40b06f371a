/** Values shared by the cart, favourites and order components of the user controller. */
module Domain {

  datatype Option<+T> = None | Some(value: T)

  /** A MongoDB ObjectId of a catalog product; the controller only ever compares two of them. */
  datatype ProductId = ProductId(hex: string)

  /** A MongoDB ObjectId of a user document. */
  datatype UserId = UserId(hex: string)

  /** One `{ product, quantity }` entry, as stored both in a cart and in an order. */
  datatype Line = Line(product: ProductId, quantity: int)

  /**
   * What a handler hands to Express: a 200 reply with its message, an error created
   * with `createError(status, message)` and passed to `next`, or an exception thrown
   * inside the handler (a property read on a missing user) that its `catch` passes to `next`.
   */
  datatype Outcome = Done(message: string) | Rejected(status: int, message: string) | Thrown
}
