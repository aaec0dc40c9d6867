/** The cart request schemas: `addToCartSchema` guards `POST /cart/add`,
    `updateCartItemSchema` guards `PUT /cart/update/:productId`, and
    `cartItemSchema` is declared beside them. */
module CartSchema {
  import opened Zod
  import opened Values

  /** An optional variant whose name and value are each optional strings. */
  predicate VariantOk(m: Body) {
    "variant" in m ==> m["variant"].Obj? && OptStr(m["variant"].entries, "name") && OptStr(m["variant"].entries, "value")
  }

  predicate CartItemOk(m: Body) {
    MinLen(m, "productId", 1) && NumAtLeast(m, "quantity", 1) && VariantOk(m)
  }

  predicate AddToCartOk(m: Body) {
    MinLen(m, "productId", 1) && NumAtLeast(m, "quantity", 1) && VariantOk(m)
  }

  predicate UpdateCartItemOk(m: Body) {
    NumAtLeast(m, "quantity", 1)
  }

  /** The two item schemas impose the same constraints. */
  lemma CartItemIsAddToCart(m: Body)
    ensures CartItemOk(m) <==> AddToCartOk(m)
  {
  }
}
