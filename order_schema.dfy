/** `createOrderSchema`, which guards `POST /orders`, and `updateOrderStatusSchema`,
    which guards `PUT /orders/:orderId/status`. Neither is strict. */
module OrderSchema {
  import opened Zod
  import opened Values

  const TransactionTypes: set<string> := {"1", "2", "3"}

  /** Street of at least 10 characters; the ZIP code only has its length checked. */
  predicate AddressOk(a: Body) {
    MinLen(a, "street", 10) && MinLen(a, "city", 2) && MinLen(a, "state", 2) && LenBetween(a, "zipCode", 5, 6)
  }

  predicate CustomerOk(c: Body, isEmail: string -> bool) {
    && MinLen(c, "fullName", 3) && Email(c, "email", isEmail) && Digits(c, "phoneNumber", 10)
    && IsObj(c, "address") && AddressOk(ObjAt(c, "address"))
  }

  /** MM/YY or MMYY, with no check that the card is still valid. */
  predicate PaymentOk(p: Body) {
    Digits(p, "cardNumber", 16) && IsStr(p, "expiryDate") && ExpiryFormatLoose(p["expiryDate"].s) && Digits(p, "cvv", 3)
  }

  predicate ItemOk(v: Value) {
    && v.Obj?
    && MinLen(v.entries, "productId", 1)
    && (IsObj(v.entries, "variant") || "variant" !in v.entries)
    && (IsObj(v.entries, "variant") ==> IsStr(ObjAt(v.entries, "variant"), "name") && IsStr(ObjAt(v.entries, "variant"), "value"))
    && NumAtLeast(v.entries, "quantity", 1)
    && NumAtLeast(v.entries, "price", 0)
  }

  /** At least one item. */
  predicate ItemsOk(m: Body) {
    && "items" in m && m["items"].Arr? && |m["items"].items| >= 1
    && forall i :: 0 <= i < |m["items"].items| ==> ItemOk(m["items"].items[i])
  }

  predicate CreateOrderOk(m: Body, isEmail: string -> bool) {
    && IsObj(m, "customer") && CustomerOk(ObjAt(m, "customer"), isEmail)
    && IsObj(m, "payment") && PaymentOk(ObjAt(m, "payment"))
    && ItemsOk(m)
    && NumAtLeast(m, "subtotal", 0) && NumAtLeast(m, "shipping", 0)
    && NumAtLeast(m, "tax", 0) && NumAtLeast(m, "total", 0)
    && OneOf(m, "transactionType", TransactionTypes)
  }

  /** Every field optional; any string accepted. */
  predicate UpdateOrderStatusOk(m: Body) {
    OptStr(m, "orderStatus") && OptStr(m, "paymentStatus") && OptStr(m, "trackingNumber") && OptStr(m, "notes")
  }
}
