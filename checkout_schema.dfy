/** The server's checkout schemas: the nested `checkoutSchema` and the flat
    `flatCheckoutSchema` that the order controller applies. */
module CheckoutSchema {
  import opened Zod
  import opened Values

  const TransactionTypes: set<string> := {"1", "2", "3"}

  // ---- checkoutSchema: nested and strict at the top level ----

  const CheckoutKeys: set<string> :=
    {"customer", "payment", "items", "subtotal", "shipping", "tax", "total", "transactionType"}

  predicate AddressOk(a: Body) {
    MinLen(a, "street", 5) && MinLen(a, "city", 2) && MinLen(a, "state", 2) && Zip(a, "zipCode")
  }

  predicate CustomerOk(c: Body, isEmail: string -> bool) {
    && MinLen(c, "fullName", 2) && Email(c, "email", isEmail) && Digits(c, "phoneNumber", 10)
    && IsObj(c, "address") && AddressOk(ObjAt(c, "address"))
  }

  predicate PaymentOk(p: Body, now: YearMonth) {
    Digits(p, "cardNumber", 16) && Expiry(p, "expiryDate", now) && Digits(p, "cvv", 3)
  }

  /** An item: a product id, an optional variant with both name and value,
      quantity at least 1 and a price that is not negative. */
  predicate ItemOk(v: Value) {
    && v.Obj?
    && IsStr(v.entries, "productId")
    && (IsObj(v.entries, "variant") || "variant" !in v.entries)
    && (IsObj(v.entries, "variant") ==> IsStr(ObjAt(v.entries, "variant"), "name") && IsStr(ObjAt(v.entries, "variant"), "value"))
    && NumAtLeast(v.entries, "quantity", 1)
    && NumAtLeast(v.entries, "price", 0)
  }

  /** An array of items; the array may be empty. */
  predicate ItemsOk(m: Body) {
    "items" in m && m["items"].Arr? && forall i :: 0 <= i < |m["items"].items| ==> ItemOk(m["items"].items[i])
  }

  predicate CheckoutOk(m: Body, now: YearMonth, isEmail: string -> bool) {
    && IsObj(m, "customer") && CustomerOk(ObjAt(m, "customer"), isEmail)
    && IsObj(m, "payment") && PaymentOk(ObjAt(m, "payment"), now)
    && ItemsOk(m)
    && NumAtLeast(m, "subtotal", 0) && NumAtLeast(m, "shipping", 0)
    && NumAtLeast(m, "tax", 0) && NumAtLeast(m, "total", 0)
    && OneOf(m, "transactionType", TransactionTypes)
    && Strict(m, CheckoutKeys)
  }

  /** The nested schema accepts a checkout whose item list is empty. */
  lemma CheckoutAcceptsNoItems(m: Body, now: YearMonth, isEmail: string -> bool)
    requires CheckoutOk(m, now, isEmail)
    ensures CheckoutOk(m["items" := Arr([])], now, isEmail)
  {
    var m' := m["items" := Arr([])];
    assert ObjAt(m', "customer") == ObjAt(m, "customer");
    assert ObjAt(m', "payment") == ObjAt(m, "payment");
  }

  /** A key outside the declared ones makes the nested schema reject. */
  lemma CheckoutRejectsUnknownKey(m: Body, now: YearMonth, isEmail: string -> bool, k: string)
    requires k in m && k !in CheckoutKeys
    ensures !CheckoutOk(m, now, isEmail)
  {
  }

  // ---- flatCheckoutSchema: the shape the order controller validates ----

  const FlatKeys: set<string> :=
    {"fullName", "email", "phoneNumber", "address", "city", "state", "zipCode",
     "cardNumber", "expiryDate", "cvv", "transactionType"}

  predicate FlatCheckoutOk(m: Body, now: YearMonth, isEmail: string -> bool) {
    && MinLen(m, "fullName", 2)
    && Email(m, "email", isEmail)
    && Digits(m, "phoneNumber", 10)
    && MinLen(m, "address", 5)
    && MinLen(m, "city", 2)
    && MinLen(m, "state", 2)
    && Zip(m, "zipCode")
    && Digits(m, "cardNumber", 16)
    && Expiry(m, "expiryDate", now)
    && Digits(m, "cvv", 3)
    && OneOf(m, "transactionType", TransactionTypes)
  }
}
