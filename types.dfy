/** Values shared by the cart ledger and the order-total route. */
module Types {

  /** An optional value: JavaScript's `null` / `undefined`. */
  datatype Option<+T> = None | Some(value: T)

  /**
   * A catalog product as far as the core uses it: its numeric identity and
   * its price. Prices are held in minor currency units (cents), so the
   * payment route's `Math.round(price * 100)` conversion is the identity here.
   * The remaining fields (title, slug, image, category, ...) are only shown
   * on pages.
   */
  datatype Product = Product(id: int, price: int)
}
