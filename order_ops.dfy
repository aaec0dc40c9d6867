/** The order controller as functions from the database state to an outcome:
    checkout, look-up, status update and cancellation, with the stock updates
    they make. */
module OrderOps {
  import opened Wrappers
  import opened Text
  import opened Values
  import opened Zod
  import opened ProductModel
  import opened CartModel
  import opened AddressModel
  import opened OrderModel
  import opened PaymentService
  import opened Database
  import CheckoutSchema
  import OrderSchema

  // ---- stock ----

  /** One `$inc` of a product's stock. */
  datatype StockDelta = StockDelta(product: string, amount: int)

  /** The `$inc` updates applied one after another. Only stock changes, and an
      unknown product id is skipped. */
  function ApplyDeltas(products: map<string, Product>, ds: seq<StockDelta>): (r: map<string, Product>)
    ensures r.Keys == products.Keys
    ensures forall id :: id in r ==> r[id] == products[id].(stock := r[id].stock)
  {
    if ds == [] then products
    else
      var last := ds[|ds| - 1];
      IncStock(ApplyDeltas(products, ds[..|ds| - 1]), last.product, last.amount)
  }

  /** The total of the deltas aimed at one product. */
  function NetChange(ds: seq<StockDelta>, id: string): int {
    if ds == [] then 0
    else NetChange(ds[..|ds| - 1], id) + (if ds[|ds| - 1].product == id then ds[|ds| - 1].amount else 0)
  }

  /** Each product's stock moves by the net change aimed at it. */
  lemma {:induction false} ApplyDeltasNet(products: map<string, Product>, ds: seq<StockDelta>, id: string)
    requires id in products
    ensures ApplyDeltas(products, ds)[id].stock == products[id].stock + NetChange(ds, id)
  {
    if ds != [] {
      ApplyDeltasNet(products, ds[..|ds| - 1], id);
    }
  }

  /** Deltas that undo others, entry by entry, undo their net change. */
  lemma {:induction false} NetChangeOpposite(ds: seq<StockDelta>, es: seq<StockDelta>, id: string)
    requires |ds| == |es|
    requires forall i :: 0 <= i < |ds| ==> es[i].product == ds[i].product && es[i].amount == -ds[i].amount
    ensures NetChange(es, id) == -NetChange(ds, id)
  {
    if ds != [] {
      NetChangeOpposite(ds[..|ds| - 1], es[..|es| - 1], id);
    }
  }

  /** The loop of createOrder: every cart line's quantity off its product's stock. */
  function CheckoutDeltas(items: seq<CartItem>): (ds: seq<StockDelta>)
    ensures |ds| == |items|
    ensures forall i :: 0 <= i < |items| ==> ds[i] == StockDelta(items[i].product, -items[i].quantity)
  {
    seq(|items|, i requires 0 <= i < |items| => StockDelta(items[i].product, -items[i].quantity))
  }

  /** The loop of cancelOrder: every order item's quantity back on its product's stock. */
  function RestockDeltas(items: seq<OrderItem>): (ds: seq<StockDelta>)
    ensures |ds| == |items|
    ensures forall i :: 0 <= i < |items| ==> ds[i] == StockDelta(items[i].product, items[i].quantity)
  {
    seq(|items|, i requires 0 <= i < |items| => StockDelta(items[i].product, items[i].quantity))
  }

  // ---- checkout ----

  /** Where `flatOrderData` reads each of its keys: the customer, the
      customer's address (whose `street` becomes `address`), the payment, or
      the request itself. */
  function SourceObj(body: Body, k: string): Body {
    if k == "fullName" || k == "email" || k == "phoneNumber" then ObjAt(body, "customer")
    else if k == "address" || k == "city" || k == "state" || k == "zipCode" then ObjAt(ObjAt(body, "customer"), "address")
    else if k == "cardNumber" || k == "expiryDate" || k == "cvv" then ObjAt(body, "payment")
    else body
  }

  function SourceKey(k: string): string { if k == "address" then "street" else k }

  /** The `flatOrderData` object: the nested request read field by field; a
      field that is missing stays missing. */
  function Flatten(body: Body): (r: Body)
    ensures forall k :: k in r <==> k in CheckoutSchema.FlatKeys && SourceKey(k) in SourceObj(body, k)
    ensures forall k :: k in r ==> r[k] == SourceObj(body, k)[SourceKey(k)]
  {
    map k | k in CheckoutSchema.FlatKeys && SourceKey(k) in SourceObj(body, k) :: SourceObj(body, k)[SourceKey(k)]
  }

  /** On `POST /orders` both schemas run. Given that `createOrderSchema`
      accepted, the flat schema adds exactly three demands: a ZIP code of
      digits, an expiry written with its slash, and an expiry month after now. */
  lemma BothCheckoutSchemas(body: Body, now: YearMonth, isEmail: string -> bool)
    requires OrderSchema.CreateOrderOk(body, isEmail)
    ensures var zip := ObjAt(ObjAt(body, "customer"), "address")["zipCode"].s;
      var exp := ObjAt(body, "payment")["expiryDate"].s;
      CheckoutSchema.FlatCheckoutOk(Flatten(body), now, isEmail)
      <==> (AllDigits(zip) && ExpiryFormat(exp) && NotExpired(exp, now))
  {
    FlatCustomerFields(body, isEmail);
    FlatPaymentFields(body, now);
  }

  /** The customer and address half of `BothCheckoutSchemas`. */
  lemma FlatCustomerFields(body: Body, isEmail: string -> bool)
    requires IsObj(body, "customer") && OrderSchema.CustomerOk(ObjAt(body, "customer"), isEmail)
    ensures var f := Flatten(body);
      var zip := ObjAt(ObjAt(body, "customer"), "address")["zipCode"].s;
      && MinLen(f, "fullName", 2) && Email(f, "email", isEmail) && Digits(f, "phoneNumber", 10)
      && MinLen(f, "address", 5) && MinLen(f, "city", 2) && MinLen(f, "state", 2)
      && (Zip(f, "zipCode") <==> AllDigits(zip))
  {
    var f := Flatten(body);
    var c := ObjAt(body, "customer");
    var a := ObjAt(c, "address");
    assert f["fullName"] == c["fullName"] && f["email"] == c["email"] && f["phoneNumber"] == c["phoneNumber"];
    assert f["address"] == a["street"] && f["city"] == a["city"] && f["state"] == a["state"] && f["zipCode"] == a["zipCode"];
  }

  /** The payment half of `BothCheckoutSchemas`. */
  lemma FlatPaymentFields(body: Body, now: YearMonth)
    requires IsObj(body, "payment") && OrderSchema.PaymentOk(ObjAt(body, "payment"))
    requires OneOf(body, "transactionType", OrderSchema.TransactionTypes)
    ensures var f := Flatten(body);
      var exp := ObjAt(body, "payment")["expiryDate"].s;
      && Digits(f, "cardNumber", 16) && Digits(f, "cvv", 3)
      && OneOf(f, "transactionType", CheckoutSchema.TransactionTypes)
      && (Expiry(f, "expiryDate", now) <==> ExpiryFormat(exp) && NotExpired(exp, now))
  {
    var f := Flatten(body);
    var p := ObjAt(body, "payment");
    assert f["cardNumber"] == p["cardNumber"] && f["expiryDate"] == p["expiryDate"] && f["cvv"] == p["cvv"];
    assert f["transactionType"] == body["transactionType"];
  }

  /** The readings of the millisecond clock behind the payment's transaction
      id, the order number and the stored transaction id. */
  datatype Clock = Clock(payment: nat, orderNumber: nat, transaction: nat)

  /** Payment success gives PROCESSING and APPROVED; anything else CANCELLED and FAILED. */
  function StatusPair(success: bool): (OrderStatus, PaymentStatus) {
    if success then (Processing, Approved) else (Cancelled, Failed)
  }

  function FirstImage(images: seq<string>): Option<string> {
    if |images| > 0 then Some(images[0]) else None
  }

  /** The order item made from a cart line and its product. */
  function OrderLine(p: Product, it: CartItem): OrderItem {
    OrderItem(it.product, Snapshot(p.title, it.price, FirstImage(p.images), p.sku), it.variant, it.quantity, it.price, it.subtotal)
  }

  /** The `cart.items.map(...)` of createOrder: a line whose product no longer
      exists populates as null and reading its `_id` throws. */
  function SnapshotItems(products: map<string, Product>, items: seq<CartItem>): (r: Result<seq<OrderItem>, Error>)
    ensures r.Ok? <==> forall i :: 0 <= i < |items| ==> items[i].product in products
    ensures r.Ok? ==> |r.value| == |items|
    ensures r.Ok? ==> forall i :: 0 <= i < |items| ==> r.value[i] == OrderLine(products[items[i].product], items[i])
  {
    if items == [] then Ok([])
    else if items[0].product !in products then Err(Unexpected("Cannot read properties of null (reading '_id')"))
    else
      match SnapshotItems(products, items[1..])
      case Ok(rest) => Ok([OrderLine(products[items[0].product], items[0])] + rest)
      case Err(e) => Err(e)
  }

  /** The order document built from the validated checkout fields, the cart
      and the payment outcome. */
  function BuildOrder(owner: string, flat: Body, cart: Cart, items: seq<OrderItem>, pay: PaymentResult, clock: Clock): Order {
    var addr := ShipAddress(StrAt(flat, "fullName"), StrAt(flat, "phoneNumber"), StrAt(flat, "address"), None,
      StrAt(flat, "city"), StrAt(flat, "state"), StrAt(flat, "zipCode"), "India");
    var st := StatusPair(pay.success);
    Order("ORD-" + ClockStamp(clock.orderNumber), owner, None, items, addr, Some(addr),
      cart.subtotal, cart.tax, cart.shipping, cart.total, "card",
      PaymentDetails(TakeLast(StrAt(flat, "cardNumber"), 4), "TXN-" + ClockStamp(clock.transaction), pay),
      st.1, st.0, None, None)
  }

  /** `createOrder`: both schemas, then the rest of the checkout, all or nothing. */
  function CreateOrder(db: Db, owner: string, body: Body, now: YearMonth, clock: Clock, isEmail: string -> bool): (r: Outcome<Order>)
    ensures r.result.Err? ==> r.db == db
    ensures r.result.Ok? ==> OrderSchema.CreateOrderOk(body, isEmail) && CheckoutSchema.FlatCheckoutOk(Flatten(body), now, isEmail)
    ensures r.result.Ok? ==> r == PlaceOrder(db, owner, Flatten(body), clock)
  {
    if !OrderSchema.CreateOrderOk(body, isEmail) then Outcome(db, Err(Invalid("Validation failed")))
    else if !CheckoutSchema.FlatCheckoutOk(Flatten(body), now, isEmail) then Outcome(db, Err(Invalid("Invalid checkout data")))
    else PlaceOrder(db, owner, Flatten(body), clock)
  }

  /** The checkout after validation: the cart, the payment, the items, the
      stock updates, the cart deletion and the order save. */
  function PlaceOrder(db: Db, owner: string, flat: Body, clock: Clock): (r: Outcome<Order>)
    ensures r.result.Err? ==> r.db == db
    ensures r.result.Ok? ==>
      var k := CartIndex(db.carts, owner);
      && 0 <= k < |db.carts| && |db.carts[k].items| > 0
      && SnapshotItems(db.products, db.carts[k].items).Ok?
      && r == SaveCheckout(db, k, BuildOrder(owner, flat, db.carts[k], SnapshotItems(db.products, db.carts[k].items).value,
                                             SimulatePayment(StrAt(flat, "transactionType"), clock.payment), clock))
  {
    var k := CartIndex(db.carts, owner);
    if k < 0 || |db.carts[k].items| == 0 then Outcome(db, Err(NotFound("Cart is empty")))
    else
      var cart := db.carts[k];
      var pay := SimulatePayment(StrAt(flat, "transactionType"), clock.payment);
      match SnapshotItems(db.products, cart.items)
      case Err(e) => Outcome(db, Err(e))
      case Ok(items) => SaveCheckout(db, k, BuildOrder(owner, flat, cart, items, pay, clock))
  }

  /** The end of a checkout of the cart at `k`: the order saved, then the
      stock taken, the cart deleted and the counter advanced; nothing
      written when the save fails. */
  function SaveCheckout(db: Db, k: int, order: Order): (r: Outcome<Order>)
    requires 0 <= k < |db.carts|
    ensures r.result.Err? ==> r.db == db
    ensures r.result.Ok? <==> OrderModel.Save(db.orders, db.nextOrderId, order).Ok?
    ensures r.result.Ok? ==>
      && r.result.value == order
      && r.db == Db(ApplyDeltas(db.products, CheckoutDeltas(db.carts[k].items)), RemoveCart(db.carts, k),
                    db.orders[db.nextOrderId := order], db.nextOrderId + 1)
  {
    match OrderModel.Save(db.orders, db.nextOrderId, order)
    case Err(e) => Outcome(db, Err(e))
    case Ok(orders) =>
      Outcome(Db(ApplyDeltas(db.products, CheckoutDeltas(db.carts[k].items)), RemoveCart(db.carts, k), orders, db.nextOrderId + 1), Ok(order))
  }

  // ---- look-up, status update, cancellation ----

  /** `Order.findOne({_id: orderId, user: owner})` finds something. */
  predicate Owns(db: Db, owner: string, orderId: nat) {
    orderId in db.orders && db.orders[orderId].owner == owner
  }

  /** `getOrderById`. */
  function GetOrderById(db: Db, owner: string, orderId: nat): (r: Result<Order, Error>)
    ensures r.Ok? <==> Owns(db, owner, orderId)
    ensures r.Ok? ==> r.value == db.orders[orderId] && r.value.owner == owner
  {
    if Owns(db, owner, orderId) then Ok(db.orders[orderId]) else Err(NotFound("Order not found"))
  }

  /** A field of the status update that is present and truthy. */
  predicate Supplied(body: Body, k: string) { k in body && Truthy(body[k]) }

  /** `updateOrderStatus`: the supplied fields are assigned; a status that is
      not an enum member fails the save. */
  function UpdateOrderStatus(db: Db, owner: string, orderId: nat, body: Body): (r: Outcome<Order>)
    ensures r.result.Err? ==> r.db == db
  {
    if !OrderSchema.UpdateOrderStatusOk(body) then Outcome(db, Err(Invalid("Validation failed")))
    else if !Owns(db, owner, orderId) then Outcome(db, Err(NotFound("Order not found")))
    else
      var o := db.orders[orderId];
      var os := if Supplied(body, "orderStatus") then ParseOrderStatus(body["orderStatus"].s) else Some(o.orderStatus);
      var ps := if Supplied(body, "paymentStatus") then ParsePaymentStatus(body["paymentStatus"].s) else Some(o.paymentStatus);
      if os.None? || ps.None? then Outcome(db, Err(Invalid("Order validation failed")))
      else
        var o' := o.(orderStatus := os.value, paymentStatus := ps.value,
          trackingNumber := if Supplied(body, "trackingNumber") then Some(body["trackingNumber"].s) else o.trackingNumber,
          notes := if Supplied(body, "notes") then Some(body["notes"].s) else o.notes);
        match OrderModel.Save(db.orders, orderId, o')
        case Err(e) => Outcome(db, Err(e))
        case Ok(orders) => Outcome(db.(orders := orders), Ok(o'))
  }

  /** The statuses from which an order may be cancelled. */
  predicate Cancellable(s: OrderStatus) { s == Pending || s == Processing || s == Cancelled }

  /** `cancelOrder`. */
  function CancelOrder(db: Db, owner: string, orderId: nat): (r: Outcome<Order>)
    ensures r.result.Err? ==> r.db == db
  {
    if !Owns(db, owner, orderId) then Outcome(db, Err(NotFound("Order not found")))
    else
      var o := db.orders[orderId];
      if !Cancellable(o.orderStatus) then Outcome(db, Err(Invalid("Order cannot be cancelled at this stage")))
      else
        var o' := o.(orderStatus := Cancelled, paymentStatus := Refunded, notes := Some("Order cancelled by user"));
        match OrderModel.Save(db.orders, orderId, o')
        case Err(e) => Outcome(db, Err(e))
        case Ok(orders) => Outcome(db.(products := ApplyDeltas(db.products, RestockDeltas(o.items)), orders := orders), Ok(o'))
  }

  // ---- properties of checkout ----

  /** Total quantity of a product over the cart lines. */
  function Ordered(items: seq<CartItem>, id: string): int {
    if items == [] then 0
    else Ordered(items[..|items| - 1], id) + (if items[|items| - 1].product == id then items[|items| - 1].quantity else 0)
  }

  lemma {:induction false} CheckoutNetChange(items: seq<CartItem>, id: string)
    ensures NetChange(CheckoutDeltas(items), id) == -Ordered(items, id)
  {
    if items != [] {
      assert CheckoutDeltas(items)[..|items| - 1] == CheckoutDeltas(items[..|items| - 1]);
      CheckoutNetChange(items[..|items| - 1], id);
    }
  }

  /** Checkout fails, changing nothing, when either schema rejects the request
      or the caller has no cart or an empty one; the checks run in that order. */
  lemma CreateOrderRejects(db: Db, owner: string, body: Body, now: YearMonth, clock: Clock, isEmail: string -> bool)
    ensures !OrderSchema.CreateOrderOk(body, isEmail) ==>
      CreateOrder(db, owner, body, now, clock, isEmail) == Outcome(db, Err(Invalid("Validation failed")))
    ensures OrderSchema.CreateOrderOk(body, isEmail) && !CheckoutSchema.FlatCheckoutOk(Flatten(body), now, isEmail) ==>
      CreateOrder(db, owner, body, now, clock, isEmail) == Outcome(db, Err(Invalid("Invalid checkout data")))
    ensures (OrderSchema.CreateOrderOk(body, isEmail) && CheckoutSchema.FlatCheckoutOk(Flatten(body), now, isEmail)
             && (CartIndex(db.carts, owner) < 0 || db.carts[CartIndex(db.carts, owner)].items == [])) ==>
      CreateOrder(db, owner, body, now, clock, isEmail) == Outcome(db, Err(NotFound("Cart is empty")))
  {
  }

  /** The order built from a cart copies it line by line and in order
      (product, variant, quantity, price, subtotal, with the snapshot price
      equal to the line price) and copies its totals; it keeps only the last
      four card digits, uses the same address for shipping and billing with
      country "India", and takes its statuses from the payment. */
  lemma BuildOrderContents(products: map<string, Product>, owner: string, flat: Body, cart: Cart, items: seq<OrderItem>,
                           pay: PaymentResult, clock: Clock)
    requires SnapshotItems(products, cart.items) == Ok(items)
    requires Digits(flat, "cardNumber", 16) && IsStr(flat, "address")
    ensures var o := BuildOrder(owner, flat, cart, items, pay, clock);
      && |o.items| == |cart.items|
      && (forall i :: 0 <= i < |o.items| ==>
            var line := cart.items[i];
            o.items[i].product == line.product && o.items[i].variant == line.variant
            && o.items[i].quantity == line.quantity && o.items[i].price == line.price
            && o.items[i].subtotal == line.subtotal && o.items[i].snapshot.price == line.price)
      && o.subtotal == cart.subtotal && o.tax == cart.tax && o.shipping == cart.shipping && o.total == cart.total
      && o.owner == owner && o.paymentMethod == "card"
      && o.paymentDetails.cardLast4 == flat["cardNumber"].s[12..]
      && o.billingAddress == Some(o.shippingAddress) && o.shippingAddress.country == "India"
      && o.shippingAddress.addressLine1 == flat["address"].s
      && (pay.success ==> o.orderStatus == Processing && o.paymentStatus == Approved)
      && (!pay.success ==> o.orderStatus == Cancelled && o.paymentStatus == Failed)
  {
  }

  /** A placed order copies the cart line by line and in order (product,
      variant, quantity, price, subtotal, with the snapshot price equal to the
      line price) and copies the cart totals; it keeps only the last four card
      digits, uses the same address for shipping and billing with country
      "India", and takes its statuses from the payment: PROCESSING and APPROVED
      for transaction type "1", CANCELLED and FAILED for any other. */
  lemma CreateOrderContents(db: Db, owner: string, body: Body, now: YearMonth, clock: Clock, isEmail: string -> bool)
    requires CreateOrder(db, owner, body, now, clock, isEmail).result.Ok?
    ensures var k := CartIndex(db.carts, owner);
      var flat := Flatten(body);
      var o := CreateOrder(db, owner, body, now, clock, isEmail).result.value;
      && k >= 0 && |db.carts[k].items| > 0
      && |o.items| == |db.carts[k].items|
      && (forall i :: 0 <= i < |o.items| ==>
            var line := db.carts[k].items[i];
            o.items[i].product == line.product && o.items[i].variant == line.variant
            && o.items[i].quantity == line.quantity && o.items[i].price == line.price
            && o.items[i].subtotal == line.subtotal && o.items[i].snapshot.price == line.price)
      && o.subtotal == db.carts[k].subtotal && o.tax == db.carts[k].tax
      && o.shipping == db.carts[k].shipping && o.total == db.carts[k].total
      && o.owner == owner && o.paymentMethod == "card"
      && o.paymentDetails.cardLast4 == flat["cardNumber"].s[12..]
      && o.billingAddress == Some(o.shippingAddress) && o.shippingAddress.country == "India"
      && o.shippingAddress.addressLine1 == flat["address"].s
      && (flat["transactionType"].s == "1" ==> o.orderStatus == Processing && o.paymentStatus == Approved)
      && (flat["transactionType"].s != "1" ==> o.orderStatus == Cancelled && o.paymentStatus == Failed)
  {
    var flat := Flatten(body);
    var r := CreateOrder(db, owner, body, now, clock, isEmail);
    assert CheckoutSchema.FlatCheckoutOk(flat, now, isEmail);
    var k := CartIndex(db.carts, owner);
    var items := SnapshotItems(db.products, db.carts[k].items).value;
    var pay := SimulatePayment(StrAt(flat, "transactionType"), clock.payment);
    assert r == SaveCheckout(db, k, BuildOrder(owner, flat, db.carts[k], items, pay, clock));
    BuildOrderContents(db.products, owner, flat, db.carts[k], items, pay, clock);
  }

  /** A successful SaveCheckout stores the order under the next fresh id and
      deletes the cart; every product's stock drops by the quantity ordered,
      with no floor. */
  lemma SaveCheckoutStore(db: Db, k: int, order: Order)
    requires 0 <= k < |db.carts| && SaveCheckout(db, k, order).result.Ok?
    ensures var r := SaveCheckout(db, k, order);
      && r.db.orders == db.orders[db.nextOrderId := order]
      && r.db.nextOrderId == db.nextOrderId + 1
      && r.db.carts == RemoveCart(db.carts, k)
      && r.db.products.Keys == db.products.Keys
      && (forall id :: id in db.products ==>
            r.db.products[id] == db.products[id].(stock := db.products[id].stock - Ordered(db.carts[k].items, id)))
  {
    var r := SaveCheckout(db, k, order);
    forall id | id in db.products
      ensures r.db.products[id] == db.products[id].(stock := db.products[id].stock - Ordered(db.carts[k].items, id))
    {
      ApplyDeltasNet(db.products, CheckoutDeltas(db.carts[k].items), id);
      CheckoutNetChange(db.carts[k].items, id);
    }
  }

  /** A placed order is stored under the next fresh id and the caller's cart
      is deleted; whatever the payment outcome, every product's stock drops by
      the quantity ordered, with no floor. */
  lemma PlaceOrderStore(db: Db, owner: string, flat: Body, clock: Clock)
    requires PlaceOrder(db, owner, flat, clock).result.Ok?
    ensures var r := PlaceOrder(db, owner, flat, clock);
      var k := CartIndex(db.carts, owner);
      && r.db.orders == db.orders[db.nextOrderId := r.result.value]
      && r.db.nextOrderId == db.nextOrderId + 1
      && 0 <= k < |db.carts| && r.db.carts == RemoveCart(db.carts, k)
      && r.db.products.Keys == db.products.Keys
      && (forall id :: id in db.products ==>
            r.db.products[id] == db.products[id].(stock := db.products[id].stock - Ordered(db.carts[k].items, id)))
  {
    var r := PlaceOrder(db, owner, flat, clock);
    var k := CartIndex(db.carts, owner);
    var items := SnapshotItems(db.products, db.carts[k].items).value;
    var order := BuildOrder(owner, flat, db.carts[k], items, SimulatePayment(StrAt(flat, "transactionType"), clock.payment), clock);
    SaveCheckoutStore(db, k, order);
  }

  /** Stock below the quantity ordered goes negative. */
  lemma CreateOrderNoStockFloor(db: Db, owner: string, body: Body, now: YearMonth, clock: Clock, isEmail: string -> bool, id: string)
    requires CreateOrder(db, owner, body, now, clock, isEmail).result.Ok?
    requires CartIndex(db.carts, owner) >= 0
    requires id in db.products && db.products[id].stock < Ordered(db.carts[CartIndex(db.carts, owner)].items, id)
    ensures CreateOrder(db, owner, body, now, clock, isEmail).db.products[id].stock < 0
  {
    PlaceOrderStore(db, owner, Flatten(body), clock);
  }

  /** Storing a placed order, deleting a cart and changing only stock keeps the invariant. */
  lemma PlacedKeepsInvariant(db: Db, products: map<string, Product>, k: int, order: Order)
    requires Inv(db) && 0 <= k < |db.carts|
    requires OrderModel.Save(db.orders, db.nextOrderId, order).Ok?
    requires products.Keys == db.products.Keys
    requires forall id :: id in products ==> products[id] == db.products[id].(stock := products[id].stock)
    ensures Inv(Db(products, RemoveCart(db.carts, k), db.orders[db.nextOrderId := order], db.nextOrderId + 1))
  {
    var carts := RemoveCart(db.carts, k);
    forall i | 0 <= i < |carts| ensures CartOk(carts[i]) && TotalsConsistent(carts[i]) {
      if i < k { assert carts[i] == db.carts[i]; } else { assert carts[i] == db.carts[i + 1]; }
    }
    OrderModel.SaveKeepsInvariant(db.orders, db.nextOrderId, order);
    forall a, b | a in products && b in products && a != b ensures products[a].sku != products[b].sku {
      assert products[a].sku == db.products[a].sku;
      assert products[b].sku == db.products[b].sku;
    }
  }

  /** Checkout keeps the invariant. */
  lemma CreateOrderKeepsInvariant(db: Db, owner: string, body: Body, now: YearMonth, clock: Clock, isEmail: string -> bool)
    requires Inv(db)
    ensures Inv(CreateOrder(db, owner, body, now, clock, isEmail).db)
  {
    var r := CreateOrder(db, owner, body, now, clock, isEmail);
    if r.result.Ok? {
      var k := CartIndex(db.carts, owner);
      PlacedKeepsInvariant(db, ApplyDeltas(db.products, CheckoutDeltas(db.carts[k].items)), k, r.result.value);
    }
  }

  // ---- properties of look-up, update and cancellation ----

  /** updateOrderStatus changes exactly the supplied (non-empty) fields among
      orderStatus, paymentStatus, trackingNumber and notes, with no check on
      the transition; nothing else in the order or the database changes. */
  lemma UpdateOrderStatusEffect(db: Db, owner: string, orderId: nat, body: Body)
    requires Inv(db) && OrderSchema.UpdateOrderStatusOk(body) && Owns(db, owner, orderId)
    requires Supplied(body, "orderStatus") ==> ParseOrderStatus(body["orderStatus"].s).Some?
    requires Supplied(body, "paymentStatus") ==> ParsePaymentStatus(body["paymentStatus"].s).Some?
    ensures var r := UpdateOrderStatus(db, owner, orderId, body);
      var o := db.orders[orderId];
      && r.result.Ok?
      && r.result.value.orderStatus == (if Supplied(body, "orderStatus") then ParseOrderStatus(body["orderStatus"].s).value else o.orderStatus)
      && r.result.value.paymentStatus == (if Supplied(body, "paymentStatus") then ParsePaymentStatus(body["paymentStatus"].s).value else o.paymentStatus)
      && r.result.value.trackingNumber == (if Supplied(body, "trackingNumber") then Some(body["trackingNumber"].s) else o.trackingNumber)
      && r.result.value.notes == (if Supplied(body, "notes") then Some(body["notes"].s) else o.notes)
      && r.result.value == o.(orderStatus := r.result.value.orderStatus, paymentStatus := r.result.value.paymentStatus,
                              trackingNumber := r.result.value.trackingNumber, notes := r.result.value.notes)
      && r.db == db.(orders := db.orders[orderId := r.result.value])
  {
  }

  /** A status that is not an enum member fails the save and changes nothing. */
  lemma UpdateOrderStatusRejectsUnknownStatus(db: Db, owner: string, orderId: nat, body: Body)
    requires OrderSchema.UpdateOrderStatusOk(body) && Owns(db, owner, orderId)
    requires Supplied(body, "orderStatus") && ParseOrderStatus(body["orderStatus"].s).None?
    ensures UpdateOrderStatus(db, owner, orderId, body) == Outcome(db, Err(Invalid("Order validation failed")))
  {
  }

  /** A status update keeps the invariant. */
  lemma UpdateKeepsInvariant(db: Db, owner: string, orderId: nat, body: Body)
    requires Inv(db)
    ensures Inv(UpdateOrderStatus(db, owner, orderId, body).db)
  {
    var r := UpdateOrderStatus(db, owner, orderId, body);
    if r.result.Ok? {
      OrderModel.SaveKeepsInvariant(db.orders, orderId, r.result.value);
    }
  }

  /** A cancellation keeps the invariant. */
  lemma CancelKeepsInvariant(db: Db, owner: string, orderId: nat)
    requires Inv(db)
    ensures Inv(CancelOrder(db, owner, orderId).db)
  {
    var c := CancelOrder(db, owner, orderId);
    if c.result.Ok? {
      OrderModel.SaveKeepsInvariant(db.orders, orderId, c.result.value);
    }
  }

  /** Cancellation of a stored order of the caller succeeds exactly from
      PENDING, PROCESSING and CANCELLED. It sets CANCELLED, REFUNDED and the
      cancellation note, and puts every item's quantity back on its product's
      stock. */
  lemma CancelOrderEffect(db: Db, owner: string, orderId: nat)
    requires Inv(db) && Owns(db, owner, orderId)
    ensures var r := CancelOrder(db, owner, orderId);
      var o := db.orders[orderId];
      && (r.result.Ok? <==> Cancellable(o.orderStatus))
      && (r.result.Ok? ==>
            && r.result.value == o.(orderStatus := Cancelled, paymentStatus := Refunded, notes := Some("Order cancelled by user"))
            && r.db.orders == db.orders[orderId := r.result.value]
            && r.db.carts == db.carts
            && r.db.products == ApplyDeltas(db.products, RestockDeltas(o.items))
            && forall id :: id in db.products ==>
                 r.db.products[id].stock == db.products[id].stock + NetChange(RestockDeltas(o.items), id))
  {
    var r := CancelOrder(db, owner, orderId);
    if r.result.Ok? {
      forall id | id in db.products
        ensures r.db.products[id].stock == db.products[id].stock + NetChange(RestockDeltas(db.orders[orderId].items), id)
      {
        ApplyDeltasNet(db.products, RestockDeltas(db.orders[orderId].items), id);
      }
    }
  }

  /** A cancelled order can be cancelled again, and the second cancellation
      puts the stock back a second time. */
  lemma CancelTwiceRestocksTwice(db: Db, owner: string, orderId: nat)
    requires Inv(db) && CancelOrder(db, owner, orderId).result.Ok?
    ensures var r1 := CancelOrder(db, owner, orderId);
      var r2 := CancelOrder(r1.db, owner, orderId);
      && r2.result.Ok?
      && forall id :: id in db.products ==>
           r2.db.products[id].stock == db.products[id].stock + 2 * NetChange(RestockDeltas(db.orders[orderId].items), id)
  {
    var r1 := CancelOrder(db, owner, orderId);
    CancelOrderEffect(db, owner, orderId);
    CancelKeepsInvariant(db, owner, orderId);
    CancelOrderEffect(r1.db, owner, orderId);
  }

  /** Restocking the items of an order undoes the checkout of the lines they were made from. */
  lemma RestockUndoesCheckout(products: map<string, Product>, lines: seq<CartItem>, items: seq<OrderItem>)
    requires |items| == |lines|
    requires forall i :: 0 <= i < |lines| ==> items[i].product == lines[i].product && items[i].quantity == lines[i].quantity
    ensures ApplyDeltas(ApplyDeltas(products, CheckoutDeltas(lines)), RestockDeltas(items)) == products
  {
    var mid := ApplyDeltas(products, CheckoutDeltas(lines));
    var fin := ApplyDeltas(mid, RestockDeltas(items));
    forall id | id in products ensures fin[id] == products[id] {
      NetChangeOpposite(CheckoutDeltas(lines), RestockDeltas(items), id);
      ApplyDeltasNet(products, CheckoutDeltas(lines), id);
      ApplyDeltasNet(mid, RestockDeltas(items), id);
    }
  }

  /** Cancelling an order right after placing it puts every product back as it
      was, whatever the payment outcome. */
  lemma CheckoutThenCancelRestoresStock(db: Db, owner: string, body: Body, now: YearMonth, clock: Clock, isEmail: string -> bool)
    requires Inv(db) && CreateOrder(db, owner, body, now, clock, isEmail).result.Ok?
    ensures var r1 := CreateOrder(db, owner, body, now, clock, isEmail);
      var r2 := CancelOrder(r1.db, owner, db.nextOrderId);
      r2.result.Ok? && r2.db.products == db.products
  {
    var r1 := CreateOrder(db, owner, body, now, clock, isEmail);
    var o := r1.result.value;
    var k := CartIndex(db.carts, owner);
    CreateOrderContents(db, owner, body, now, clock, isEmail);
    CreateOrderKeepsInvariant(db, owner, body, now, clock, isEmail);
    assert r1.db.orders[db.nextOrderId] == o;
    assert Owns(r1.db, owner, db.nextOrderId);
    assert Cancellable(o.orderStatus);
    CancelOrderEffect(r1.db, owner, db.nextOrderId);
    RestockUndoesCheckout(db.products, db.carts[k].items, o.items);
  }
}
