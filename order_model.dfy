/** The `Order` document: statuses, item snapshots, field constraints and defaults. */
module OrderModel {
  import opened Wrappers
  import opened Text
  import opened CartModel
  import opened AddressModel
  import opened PaymentService

  datatype OrderStatus = Pending | Confirmed | Processing | Shipped | Delivered | Cancelled

  datatype PaymentStatus = PaymentPending | Approved | Failed | Refunded

  function OrderStatusName(s: OrderStatus): string {
    match s
    case Pending => "PENDING"
    case Confirmed => "CONFIRMED"
    case Processing => "PROCESSING"
    case Shipped => "SHIPPED"
    case Delivered => "DELIVERED"
    case Cancelled => "CANCELLED"
  }

  /** The enum validator of `orderStatus`: which stored string names which status. */
  function ParseOrderStatus(s: string): (r: Option<OrderStatus>)
    ensures r.Some? ==> OrderStatusName(r.value) == s
  {
    if s == "PENDING" then Some(Pending)
    else if s == "CONFIRMED" then Some(Confirmed)
    else if s == "PROCESSING" then Some(Processing)
    else if s == "SHIPPED" then Some(Shipped)
    else if s == "DELIVERED" then Some(Delivered)
    else if s == "CANCELLED" then Some(Cancelled)
    else None
  }

  lemma OrderStatusRoundTrip(s: OrderStatus)
    ensures ParseOrderStatus(OrderStatusName(s)) == Some(s)
  {
  }

  function PaymentStatusName(s: PaymentStatus): string {
    match s
    case PaymentPending => "PENDING"
    case Approved => "APPROVED"
    case Failed => "FAILED"
    case Refunded => "REFUNDED"
  }

  function ParsePaymentStatus(s: string): (r: Option<PaymentStatus>)
    ensures r.Some? ==> PaymentStatusName(r.value) == s
  {
    if s == "PENDING" then Some(PaymentPending)
    else if s == "APPROVED" then Some(Approved)
    else if s == "FAILED" then Some(Failed)
    else if s == "REFUNDED" then Some(Refunded)
    else None
  }

  lemma PaymentStatusRoundTrip(s: PaymentStatus)
    ensures ParsePaymentStatus(PaymentStatusName(s)) == Some(s)
  {
  }

  /** The product as it was when the order was placed; `image` is the
      product's first image, which it may not have. */
  datatype Snapshot = Snapshot(title: string, price: int, image: Option<string>, sku: string)

  datatype OrderItem = OrderItem(product: string, snapshot: Snapshot, variant: VariantSel, quantity: int, price: int, subtotal: int)

  datatype PaymentDetails = PaymentDetails(cardLast4: string, transactionId: string, gatewayResponse: PaymentResult)

  datatype Order = Order(
    orderNumber: string,
    owner: string,
    guestEmail: Option<string>,
    items: seq<OrderItem>,
    shippingAddress: ShipAddress,
    billingAddress: Option<ShipAddress>,
    subtotal: int,
    tax: int,
    shipping: int,
    total: int,
    paymentMethod: string,
    paymentDetails: PaymentDetails,
    paymentStatus: PaymentStatus,
    orderStatus: OrderStatus,
    notes: Option<string>,
    trackingNumber: Option<string>)

  /** Snapshot title, image and sku present, quantity at least 1, price and
      subtotal not negative. */
  predicate OrderItemOk(it: OrderItem) {
    && it.snapshot.title != "" && it.snapshot.image.Some? && it.snapshot.image.value != "" && it.snapshot.sku != ""
    && it.quantity >= 1 && it.price >= 0 && it.subtotal >= 0
  }

  /** `guestEmail` is checked only when it is non-empty. */
  predicate GuestEmailOk(e: Option<string>) {
    e.None? || e.value == "" || MatchesEmailPattern(e.value)
  }

  predicate OrderOk(o: Order) {
    && o.orderNumber != ""
    && GuestEmailOk(o.guestEmail)
    && (forall i :: 0 <= i < |o.items| ==> OrderItemOk(o.items[i]))
    && ShipAddressOk(o.shippingAddress)
    && (o.billingAddress.Some? ==> ShipAddressOk(o.billingAddress.value))
    && o.subtotal >= 0 && o.tax >= 0 && o.shipping >= 0 && o.total >= 0
    && o.paymentMethod != ""
  }

  /** The fields of a new order that have defaults, as supplied. */
  datatype OrderDefaults = OrderDefaults(
    tax: Option<int>,
    shipping: Option<int>,
    paymentMethod: Option<string>,
    paymentStatus: Option<PaymentStatus>,
    orderStatus: Option<OrderStatus>)

  /** Fills the defaults: tax and shipping 0, payment method "card", both statuses PENDING. */
  function ApplyDefaults(o: Order, d: OrderDefaults): (r: Order)
    ensures r.tax == (if d.tax.Some? then d.tax.value else 0)
    ensures r.shipping == (if d.shipping.Some? then d.shipping.value else 0)
    ensures r.paymentMethod == (if d.paymentMethod.Some? then d.paymentMethod.value else "card")
    ensures r.paymentStatus == (if d.paymentStatus.Some? then d.paymentStatus.value else PaymentPending)
    ensures r.orderStatus == (if d.orderStatus.Some? then d.orderStatus.value else Pending)
    ensures r == o.(tax := r.tax, shipping := r.shipping, paymentMethod := r.paymentMethod,
                    paymentStatus := r.paymentStatus, orderStatus := r.orderStatus)
  {
    o.(tax := match d.tax case Some(t) => t case None => 0,
       shipping := match d.shipping case Some(s) => s case None => 0,
       paymentMethod := match d.paymentMethod case Some(m) => m case None => "card",
       paymentStatus := match d.paymentStatus case Some(p) => p case None => PaymentPending,
       orderStatus := match d.orderStatus case Some(s) => s case None => Pending)
  }

  /** A new order given no defaulted field is valid exactly when its other fields are. */
  lemma DefaultsAreValid(o: Order)
    requires o.tax == 0 && o.shipping == 0 && o.paymentMethod == "card"
    ensures OrderOk(ApplyDefaults(o, OrderDefaults(None, None, None, None, None))) <==> OrderOk(o)
    ensures ApplyDefaults(o, OrderDefaults(None, None, None, None, None)).orderStatus == Pending
    ensures ApplyDefaults(o, OrderDefaults(None, None, None, None, None)).paymentStatus == PaymentPending
  {
  }

  /** No two stored orders share an order number. */
  predicate OrderNumbersUnique(orders: map<nat, Order>) {
    forall a, b :: a in orders && b in orders && a != b ==> orders[a].orderNumber != orders[b].orderNumber
  }

  /** `order.save()`: validation, then the unique index on `orderNumber`
      (an order may be saved again under its own id). */
  function Save(orders: map<nat, Order>, id: nat, o: Order): (r: Result<map<nat, Order>, Error>)
    ensures r.Ok? <==> OrderOk(o) && forall k :: k in orders && k != id ==> orders[k].orderNumber != o.orderNumber
    ensures r.Ok? ==> r.value == orders[id := o]
  {
    if !OrderOk(o) then Err(Invalid("Order validation failed"))
    else if exists k :: k in orders && k != id && orders[k].orderNumber == o.orderNumber then
      Err(Invalid("duplicate key: orderNumber"))
    else Ok(orders[id := o])
  }

  /** A save keeps order numbers unique and every stored order valid. */
  lemma SaveKeepsInvariant(orders: map<nat, Order>, id: nat, o: Order)
    requires OrderNumbersUnique(orders) && forall k :: k in orders ==> OrderOk(orders[k])
    requires Save(orders, id, o).Ok?
    ensures OrderNumbersUnique(Save(orders, id, o).value)
    ensures forall k :: k in Save(orders, id, o).value ==> OrderOk(Save(orders, id, o).value[k])
  {
  }
}
