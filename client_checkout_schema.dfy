/** The client's strict `checkoutFormSchema`. */
module ClientCheckoutSchema {
  import opened Zod
  import CheckoutSchema

  predicate CheckoutFormOk(m: Body, now: YearMonth, isEmail: string -> bool) {
    && MinLen(m, "fullName", 2)
    && Email(m, "email", isEmail)
    && Digits(m, "phoneNumber", 10)
    && MinLen(m, "address", 5)
    && MinLen(m, "city", 2)
    && MinLen(m, "state", 2)
    && Zip(m, "zipCode")
    && Digits(m, "cardNumber", 16)
    && Expiry(m, "expiryDate", now)
    && Digits(m, "cvv", 3)
    && OneOf(m, "transactionType", {"1", "2", "3"})
    && Strict(m, CheckoutSchema.FlatKeys)
  }

  /** The form is the server's flat checkout schema made strict. */
  lemma FormIsStrictFlatCheckout(m: Body, now: YearMonth, isEmail: string -> bool)
    ensures CheckoutFormOk(m, now, isEmail) <==> CheckoutSchema.FlatCheckoutOk(m, now, isEmail) && Strict(m, CheckoutSchema.FlatKeys)
  {
  }
}
