/** The cart and order controllers as one store whose collections are updated
    in place. Each controller method works on local copies and writes the
    store's fields only when it succeeds, which is the all-or-nothing effect of
    its database transaction; its contract ties the new store and the reply to
    the functions of CartOps and OrderOps, whose properties are proved there. */
module Controllers {
  import opened Wrappers
  import opened Values
  import opened Zod
  import opened ProductModel
  import opened CartModel
  import opened OrderModel
  import opened PaymentService
  import opened Database
  import opened CartOps
  import opened OrderOps
  import CartSchema
  import CheckoutSchema
  import OrderSchema

  /** `cart.items.reduce((sum, item) => sum + item.subtotal, 0)`. */
  method SumLines(items: seq<CartItem>) returns (s: int)
    ensures s == SumSubtotals(items)
  {
    s := 0;
    var i := 0;
    while i < |items|
      invariant 0 <= i <= |items|
      invariant s == SumSubtotals(items[..i])
    {
      assert items[..i + 1][..i] == items[..i];
      s := s + items[i].subtotal;
      i := i + 1;
    }
    assert items[..|items|] == items;
  }

  /** The totals recomputation the controllers run before saving (and the
      pre-save hook runs again): subtotal is the sum of the lines, total adds
      tax and shipping. */
  method Recompute(c: Cart) returns (r: Cart)
    ensures r == PreSave(c)
    ensures TotalsConsistent(r)
  {
    var s := SumLines(c.items);
    r := c.(subtotal := s);
    r := r.(total := r.subtotal + r.tax + r.shipping);
  }

  /** `cart.items.findIndex(...)` with the test of addToCart; with no variant
      it is the product-only test of update and remove. */
  method FindLine(items: seq<CartItem>, productId: string, v: Option<ReqVariant>) returns (i: int)
    ensures i == FirstMatch(items, productId, v)
    ensures i >= 0 ==> LineMatches(items[i], productId, v)
  {
    i := 0;
    while i < |items|
      invariant 0 <= i <= |items|
      invariant forall j :: 0 <= j < i ==> !LineMatches(items[j], productId, v)
    {
      if LineMatches(items[i], productId, v) {
        FirstMatchIsFirst(items, productId, v, i);
        return;
      }
      i := i + 1;
    }
    i := -1;
  }

  /** The first index that matches, with none before it, is FirstMatch. */
  lemma FirstMatchIsFirst(items: seq<CartItem>, productId: string, v: Option<ReqVariant>, i: int)
    requires 0 <= i < |items| && LineMatches(items[i], productId, v)
    requires forall j :: 0 <= j < i ==> !LineMatches(items[j], productId, v)
    ensures FirstMatch(items, productId, v) == i
  {
  }

  /** The first index whose cart has the owner, with none before it, is CartIndex. */
  lemma CartIndexIsFirst(carts: seq<Cart>, owner: string, i: int)
    requires 0 <= i < |carts| && carts[i].owner == owner
    requires forall j :: 0 <= j < i ==> carts[j].owner != owner
    ensures CartIndex(carts, owner) == i
  {
  }

  /** `$inc` of each delta in turn, the loops of createOrder and cancelOrder. */
  method ApplyStock(products: map<string, Product>, ds: seq<StockDelta>) returns (r: map<string, Product>)
    ensures r == ApplyDeltas(products, ds)
  {
    r := products;
    var i := 0;
    while i < |ds|
      invariant 0 <= i <= |ds|
      invariant r == ApplyDeltas(products, ds[..i])
    {
      assert ds[..i + 1][..i] == ds[..i];
      r := IncStock(r, ds[i].product, ds[i].amount);
      i := i + 1;
    }
    assert ds[..|ds|] == ds;
  }

  /** PlaceOrder with no cart, or an empty one. */
  lemma PlaceOrderWithoutCart(db: Db, owner: string, flat: Body, clock: Clock)
    requires CartIndex(db.carts, owner) < 0 || |db.carts[CartIndex(db.carts, owner)].items| == 0
    ensures PlaceOrder(db, owner, flat, clock) == Outcome(db, Err(NotFound("Cart is empty")))
  {
  }

  /** PlaceOrder when a product of the cart is missing. */
  lemma PlaceOrderSnapshotFails(db: Db, owner: string, flat: Body, clock: Clock, k: int, e: Error)
    requires k == CartIndex(db.carts, owner) && 0 <= k < |db.carts| && |db.carts[k].items| > 0
    requires SnapshotItems(db.products, db.carts[k].items) == Err(e)
    ensures PlaceOrder(db, owner, flat, clock) == Outcome(db, Err(e))
  {
  }

  /** PlaceOrder past the snapshot: the order built and handed to SaveCheckout. */
  lemma PlaceOrderSaves(db: Db, owner: string, flat: Body, clock: Clock, k: int, items: seq<OrderItem>)
    requires k == CartIndex(db.carts, owner) && 0 <= k < |db.carts| && |db.carts[k].items| > 0
    requires SnapshotItems(db.products, db.carts[k].items) == Ok(items)
    ensures PlaceOrder(db, owner, flat, clock) ==
      SaveCheckout(db, k, BuildOrder(owner, flat, db.carts[k], items, SimulatePayment(StrAt(flat, "transactionType"), clock.payment), clock))
  {
  }

  class Store {
    var products: map<string, Product>
    var carts: seq<Cart>
    var orders: map<nat, Order>
    var nextOrderId: nat

    /** The collections as one database value. */
    function State(): Db
      reads this
    {
      Db(products, carts, orders, nextOrderId)
    }

    /** The stored documents are valid and no owner has two carts. */
    ghost predicate Valid()
      reads this
    {
      Inv(State()) && OwnersUnique(carts)
    }

    constructor ()
      ensures State() == Db(map[], [], map[], 0)
      ensures Valid()
    {
      products := map[];
      carts := [];
      orders := map[];
      nextOrderId := 0;
    }

    /** `Cart.findOne({user: owner})`. */
    method FindCart(owner: string) returns (k: int)
      ensures k == CartIndex(carts, owner)
      ensures k >= 0 ==> carts[k].owner == owner
    {
      k := 0;
      while k < |carts|
        invariant 0 <= k <= |carts|
        invariant forall j :: 0 <= j < k ==> carts[j].owner != owner
      {
        if carts[k].owner == owner {
          CartIndexFrom0(owner, k);
          return;
        }
        k := k + 1;
      }
      k := -1;
    }

    lemma CartIndexFrom0(owner: string, k: int)
      requires 0 <= k < |carts| && carts[k].owner == owner
      requires forall j :: 0 <= j < k ==> carts[j].owner != owner
      ensures CartIndex(carts, owner) == k
    {
      CartIndexIsFirst(carts, owner, k);
    }

    /** `cart.save()` of the cart found at index k, or of a new cart when k is -1. */
    method SaveCart(k: int, c: Cart) returns (r: Result<Cart, Error>)
      requires -1 <= k < |carts|
      modifies this
      ensures var o := Persist(old(State()), k, c); State() == o.db && r == o.result
    {
      var s := CartModel.Save(c);
      if s.Ok? {
        if k >= 0 {
          carts := carts[k := s.value];
        } else {
          carts := carts + [s.value];
        }
      }
      r := s;
    }

    /** `getCart`. */
    method GetCart(owner: string, now: int) returns (r: Result<Cart, Error>)
      modifies this
      ensures var o := CartOps.GetCart(old(State()), owner, now); State() == o.db && r == o.result
      ensures old(Valid()) ==> Valid()
    {
      GetCartKeepsInvariant(State(), owner, now);
      var k := FindCart(owner);
      if k >= 0 {
        r := Ok(carts[k]);
      } else {
        NewCartSaves(owner, now);
        r := SaveCart(-1, NewCart(owner, now));
      }
    }

    /** `addToCart`. */
    method AddToCart(owner: string, body: Body, now: int) returns (r: Result<Cart, Error>)
      modifies this
      ensures var o := CartOps.AddToCart(old(State()), owner, body, now); State() == o.db && r == o.result
      ensures old(Valid()) ==> Valid()
    {
      AddToCartKeepsInvariant(State(), owner, body, now);
      if !CartSchema.AddToCartOk(body) {
        return Err(Invalid("Validation failed"));
      }
      var productId := body["productId"].s;
      var quantity := body["quantity"].n;
      var v := RequestVariant(body);
      if productId !in products {
        return Err(NotFound("Product not found"));
      }
      var k := FindCart(owner);
      var cart := if k >= 0 then carts[k] else NewCart(owner, now);
      var i := FindLine(cart.items, productId, v);
      var price := ResolvedPrice(v, products[productId].price);
      var items := cart.items;
      if i >= 0 {
        var q := items[i].quantity + quantity;
        items := items[i := items[i].(quantity := q, subtotal := q * price)];
      } else {
        items := items + [CartItem(productId, Selection(v), quantity, price, quantity * price)];
      }
      cart := Recompute(cart.(items := items));
      r := SaveCart(k, cart);
    }

    /** `updateCartItem`. */
    method UpdateCartItem(owner: string, productId: string, body: Body) returns (r: Result<Cart, Error>)
      modifies this
      ensures var o := CartOps.UpdateCartItem(old(State()), owner, productId, body); State() == o.db && r == o.result
      ensures old(Valid()) ==> Valid()
    {
      UpdateCartItemKeepsInvariant(State(), owner, productId, body);
      if !CartSchema.UpdateCartItemOk(body) {
        return Err(Invalid("Validation failed"));
      }
      var k := FindCart(owner);
      if k < 0 {
        return Err(NotFound("Cart not found"));
      }
      var cart := carts[k];
      var i := FindLine(cart.items, productId, None);
      if i < 0 {
        return Err(NotFound("Item not found in cart"));
      }
      var quantity := body["quantity"].n;
      var items := cart.items[i := cart.items[i].(quantity := quantity)];
      items := items[i := items[i].(subtotal := quantity * items[i].price)];
      assert items == SetQuantity(cart.items, i, quantity);
      cart := Recompute(cart.(items := items));
      r := SaveCart(k, cart);
    }

    /** `removeCartItem`. */
    method RemoveCartItem(owner: string, productId: string) returns (r: Result<Cart, Error>)
      modifies this
      ensures var o := CartOps.RemoveCartItem(old(State()), owner, productId); State() == o.db && r == o.result
      ensures old(Valid()) ==> Valid()
    {
      RemoveCartItemKeepsInvariant(State(), owner, productId);
      var k := FindCart(owner);
      if k < 0 {
        return Err(NotFound("Cart not found"));
      }
      var cart := carts[k];
      var i := FindLine(cart.items, productId, None);
      if i < 0 {
        return Err(NotFound("Item not found in cart"));
      }
      cart := Recompute(cart.(items := cart.items[..i] + cart.items[i + 1..]));
      r := SaveCart(k, cart);
    }

    /** `clearCart`. */
    method ClearCart(owner: string) returns (r: Result<Cart, Error>)
      modifies this
      ensures var o := CartOps.ClearCart(old(State()), owner); State() == o.db && r == o.result
      ensures old(Valid()) ==> Valid()
    {
      ClearCartKeepsInvariant(State(), owner);
      var k := FindCart(owner);
      if k < 0 {
        return Err(NotFound("Cart not found"));
      }
      var cart := carts[k].(items := [], subtotal := 0, total := 0);
      r := SaveCart(k, cart);
    }

    /** `createOrder`: both schemas, the cart, the payment, the snapshot, the
        stock loop, the cart deletion and the order save, committed together. */
    method CreateOrder(owner: string, body: Body, now: YearMonth, clock: Clock, isEmail: string -> bool)
      returns (r: Result<Order, Error>)
      modifies this
      ensures var o := OrderOps.CreateOrder(old(State()), owner, body, now, clock, isEmail); State() == o.db && r == o.result
      ensures old(Valid()) ==> Valid()
    {
      if Inv(State()) {
        CreateOrderKeepsInvariant(State(), owner, body, now, clock, isEmail);
      }
      if !OrderSchema.CreateOrderOk(body, isEmail) {
        return Err(Invalid("Validation failed"));
      }
      var flat := Flatten(body);
      if !CheckoutSchema.FlatCheckoutOk(flat, now, isEmail) {
        return Err(Invalid("Invalid checkout data"));
      }
      r := PlaceOrder(owner, flat, clock);
    }

    /** The checkout after validation: the work of createOrder from reading
        the cart to saving the order. */
    method PlaceOrder(owner: string, flat: Body, clock: Clock) returns (r: Result<Order, Error>)
      modifies this
      ensures var o := OrderOps.PlaceOrder(old(State()), owner, flat, clock); State() == o.db && r == o.result
      ensures old(OwnersUnique(carts)) ==> OwnersUnique(carts)
    {
      var k := FindCart(owner);
      if k < 0 || |carts[k].items| == 0 {
        PlaceOrderWithoutCart(State(), owner, flat, clock);
        return Err(NotFound("Cart is empty"));
      }
      r := CheckoutCart(k, owner, flat, clock);
    }

    /** The checkout of the caller's non-empty cart, found at `k`. */
    method CheckoutCart(k: int, owner: string, flat: Body, clock: Clock) returns (r: Result<Order, Error>)
      requires k == CartIndex(carts, owner) && 0 <= k < |carts| && |carts[k].items| > 0
      modifies this
      ensures var o := OrderOps.PlaceOrder(old(State()), owner, flat, clock); State() == o.db && r == o.result
      ensures old(OwnersUnique(carts)) ==> OwnersUnique(carts)
    {
      var items := SnapshotItems(products, carts[k].items);
      if items.Err? {
        PlaceOrderSnapshotFails(State(), owner, flat, clock, k, items.error);
        return Err(items.error);
      }
      r := SaveOrder(k, owner, flat, clock, items.value);
    }

    /** The order built from the cart at `k` and its snapshot, then saved. */
    method SaveOrder(k: int, owner: string, flat: Body, clock: Clock, items: seq<OrderItem>) returns (r: Result<Order, Error>)
      requires k == CartIndex(carts, owner) && 0 <= k < |carts| && |carts[k].items| > 0
      requires SnapshotItems(products, carts[k].items) == Ok(items)
      modifies this
      ensures var o := OrderOps.PlaceOrder(old(State()), owner, flat, clock); State() == o.db && r == o.result
      ensures old(OwnersUnique(carts)) ==> OwnersUnique(carts)
    {
      PlaceOrderSaves(State(), owner, flat, clock, k, items);
      var pay := SimulatePayment(StrAt(flat, "transactionType"), clock.payment);
      r := SaveCheckout(k, BuildOrder(owner, flat, carts[k], items, pay, clock));
    }

    /** SaveCheckout on the store. */
    method SaveCheckout(k: int, order: Order) returns (r: Result<Order, Error>)
      requires 0 <= k < |carts|
      modifies this
      ensures var o := OrderOps.SaveCheckout(old(State()), k, order); State() == o.db && r == o.result
      ensures old(OwnersUnique(carts)) ==> OwnersUnique(carts)
    {
      var saved := OrderModel.Save(orders, nextOrderId, order);
      if saved.Err? {
        return Err(saved.error);
      }
      var stock := ApplyStock(products, CheckoutDeltas(carts[k].items));
      Commit(k, stock, saved.value);
      r := Ok(order);
    }

    /** The writes of a checkout: new stock, the cart deleted, the order
        collection saved, and the next fresh id. */
    method Commit(k: int, stock: map<string, Product>, saved: map<nat, Order>)
      requires 0 <= k < |carts|
      modifies this
      ensures State() == Db(stock, RemoveCart(old(carts), k), saved, old(nextOrderId) + 1)
      ensures old(OwnersUnique(carts)) ==> OwnersUnique(carts)
    {
      CreateOrderCommitsOwners(k);
      products := stock;
      carts := RemoveCart(carts, k);
      orders := saved;
      nextOrderId := nextOrderId + 1;
    }

    /** Deleting a cart keeps the owners unique. */
    lemma CreateOrderCommitsOwners(k: int)
      requires 0 <= k < |carts|
      ensures OwnersUnique(carts) ==> OwnersUnique(RemoveCart(carts, k))
    {
      var rest := RemoveCart(carts, k);
      if OwnersUnique(carts) {
        forall i, j | 0 <= i < j < |rest| ensures rest[i].owner != rest[j].owner {
          var i' := if i < k then i else i + 1;
          var j' := if j < k then j else j + 1;
          assert rest[i] == carts[i'] && rest[j] == carts[j'];
        }
      }
    }

    /** `getOrderById`. */
    method GetOrderById(owner: string, orderId: nat) returns (r: Result<Order, Error>)
      ensures r == OrderOps.GetOrderById(State(), owner, orderId)
      ensures r.Ok? <==> orderId in orders && orders[orderId].owner == owner
    {
      if orderId in orders && orders[orderId].owner == owner {
        r := Ok(orders[orderId]);
      } else {
        r := Err(NotFound("Order not found"));
      }
    }

    /** `updateOrderStatus`: each supplied field is assigned on the order, then it is saved. */
    method UpdateOrderStatus(owner: string, orderId: nat, body: Body) returns (r: Result<Order, Error>)
      modifies this
      ensures var o := OrderOps.UpdateOrderStatus(old(State()), owner, orderId, body); State() == o.db && r == o.result
      ensures old(Valid()) ==> Valid()
    {
      if Inv(State()) {
        UpdateKeepsInvariant(State(), owner, orderId, body);
      }
      if !OrderSchema.UpdateOrderStatusOk(body) {
        return Err(Invalid("Validation failed"));
      }
      if !(orderId in orders && orders[orderId].owner == owner) {
        return Err(NotFound("Order not found"));
      }
      var order := orders[orderId];
      var os := Some(order.orderStatus);
      var ps := Some(order.paymentStatus);
      if Supplied(body, "orderStatus") {
        os := ParseOrderStatus(body["orderStatus"].s);
      }
      if Supplied(body, "paymentStatus") {
        ps := ParsePaymentStatus(body["paymentStatus"].s);
      }
      if os.None? || ps.None? {
        return Err(Invalid("Order validation failed"));
      }
      order := order.(orderStatus := os.value, paymentStatus := ps.value);
      if Supplied(body, "trackingNumber") {
        order := order.(trackingNumber := Some(body["trackingNumber"].s));
      }
      if Supplied(body, "notes") {
        order := order.(notes := Some(body["notes"].s));
      }
      var saved := OrderModel.Save(orders, orderId, order);
      if saved.Err? {
        return Err(saved.error);
      }
      orders := saved.value;
      r := Ok(order);
    }

    /** `cancelOrder`: the status gate, the field assignments, the restock loop and the save. */
    method CancelOrder(owner: string, orderId: nat) returns (r: Result<Order, Error>)
      modifies this
      ensures var o := OrderOps.CancelOrder(old(State()), owner, orderId); State() == o.db && r == o.result
      ensures old(Valid()) ==> Valid()
    {
      if Inv(State()) {
        CancelKeepsInvariant(State(), owner, orderId);
      }
      if !(orderId in orders && orders[orderId].owner == owner) {
        return Err(NotFound("Order not found"));
      }
      var order := orders[orderId];
      if !Cancellable(order.orderStatus) {
        return Err(Invalid("Order cannot be cancelled at this stage"));
      }
      var cancelled := order.(orderStatus := Cancelled, paymentStatus := Refunded, notes := Some("Order cancelled by user"));
      var stock := ApplyStock(products, RestockDeltas(order.items));
      var saved := OrderModel.Save(orders, orderId, cancelled);
      if saved.Err? {
        return Err(saved.error);
      }
      products := stock;
      orders := saved.value;
      r := Ok(cancelled);
    }
  }
}
