/** Values shared by every part of the model. */
module Common {

  datatype Option<+T> = None | Some(value: T)

  /** The identity provider's user id; opaque to the cart and the scanner. */
  type UserId = string

  /** A product's primary key in the `products` table. */
  type ProductId = string

  /** A cart line's primary key; the store assigns it, the model numbers lines. */
  type LineId = nat
}
