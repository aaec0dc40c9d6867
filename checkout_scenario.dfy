/** A worked checkout: one line of product P1 (price 100, quantity 2, stock 10)
    paid with transaction type "1". The lemmas here are witnesses that the
    nested route schema and the controller's flat schema can both be met by
    one request; the relation between the two for every request is
    `OrderOps.BothCheckoutSchemas`. */
module CheckoutScenario {
  import opened Wrappers
  import opened Values
  import opened Zod
  import opened ProductModel
  import opened CartModel
  import opened OrderModel
  import opened Database
  import opened OrderOps

  const P1 := Product("Widget", "A widget", 100, ["widget.png"], [], 10, "SKU-P1", true)

  const Before := Db(map["P1" := P1], [Cart("u1", [CartItem("P1", NoVariant, 2, 100, 200)], 200, 0, 0, 200, 0)], map[], 0)

  const Address: Body := map["street" := Str("12 Park Street"), "city" := Str("Pune"), "state" := Str("MH"), "zipCode" := Str("411001")]

  const Customer: Body := map[
    "fullName" := Str("Asha Rao"), "email" := Str("buyer@example.com"), "phoneNumber" := Str("9876543210"),
    "address" := Obj(Address)]

  const Payment: Body := map["cardNumber" := Str("4111111111111111"), "expiryDate" := Str("12/30"), "cvv" := Str("123")]

  const Line: Value := Obj(map["productId" := Str("P1"), "quantity" := Num(2), "price" := Num(100)])

  const Request: Body := map[
    "customer" := Obj(Customer), "payment" := Obj(Payment), "items" := Arr([Line]),
    "subtotal" := Num(200), "shipping" := Num(0), "tax" := Num(0), "total" := Num(200),
    "transactionType" := Str("1")]

  lemma CustomerPasses(isEmail: string -> bool)
    requires isEmail("buyer@example.com")
    ensures OrderSchema.CustomerOk(Customer, isEmail)
  {
    assert OrderSchema.AddressOk(Address);
    assert Text.DigitsOfLength("9876543210", 10);
  }

  lemma PaymentPasses()
    ensures OrderSchema.PaymentOk(Payment)
  {
    assert Text.DigitsOfLength("4111111111111111", 16);
    assert Text.DigitsOfLength("123", 3);
    assert ExpiryFormat("12/30");
  }

  lemma RequestPassesRouteSchema(isEmail: string -> bool)
    requires isEmail("buyer@example.com")
    ensures OrderSchema.CreateOrderOk(Request, isEmail)
  {
    CustomerPasses(isEmail);
    PaymentPasses();
    LinePasses();
    assert ObjAt(Request, "customer") == Customer && ObjAt(Request, "payment") == Payment;
    assert Request["items"].items == [Line];
  }

  lemma LinePasses()
    ensures OrderSchema.ItemOk(Line)
  {
  }

  /** The address's zip code is all digits and the card expires after June 2025. */
  lemma ZipAndExpiryPass()
    ensures Text.AllDigits("411001")
    ensures ExpiryFormat("12/30") && NotExpired("12/30", YearMonth(2025, 6))
  {
    assert Text.AllDigits("411001");
    assert ExpiryFormat("12/30");
  }

  lemma RequestPassesFlatSchema(isEmail: string -> bool)
    requires isEmail("buyer@example.com")
    ensures CheckoutSchema.FlatCheckoutOk(Flatten(Request), YearMonth(2025, 6), isEmail)
  {
    RequestPassesRouteSchema(isEmail);
    assert ObjAt(ObjAt(Request, "customer"), "address")["zipCode"].s == "411001" by {
      assert ObjAt(Request, "customer") == Customer;
      assert ObjAt(Customer, "address") == Address;
    }
    assert ObjAt(Request, "payment")["expiryDate"].s == "12/30" by {
      assert ObjAt(Request, "payment") == Payment;
    }
    ZipAndExpiryPass();
    BothCheckoutSchemas(Request, YearMonth(2025, 6), isEmail);
  }

}
