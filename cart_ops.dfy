/** The cart controller as functions from the database state to an outcome:
    get-or-create, add a line, update a line, remove a line, clear. */
module CartOps {
  import opened Wrappers
  import opened Values
  import opened Zod
  import opened ProductModel
  import opened CartModel
  import opened Database
  import CartSchema

  /** The variant of an add-to-cart request; `price` is read from the request
      though the schema does not declare it. */
  datatype ReqVariant = ReqVariant(name: Option<string>, value: Option<string>, price: Option<int>)

  function OptStrAt(m: Body, k: string): Option<string> {
    if IsStr(m, k) then Some(m[k].s) else None
  }

  function RequestVariant(body: Body): Option<ReqVariant> {
    if IsObj(body, "variant") then
      var e := ObjAt(body, "variant");
      Some(ReqVariant(OptStrAt(e, "name"), OptStrAt(e, "value"),
        if "price" in e && e["price"].Num? then Some(e["price"].n) else None))
    else None
  }

  /** The `findIndex` test of addToCart: same product and, when a variant is
      given, the same variant name and value. */
  predicate LineMatches(it: CartItem, productId: string, v: Option<ReqVariant>) {
    it.product == productId && (v.None? || (it.variant.name == v.value.name && it.variant.value == v.value.value))
  }

  /** The first line that matches, or -1. With no variant this is the first
      line of the product, which is the test of update and remove. */
  function FirstMatch(items: seq<CartItem>, productId: string, v: Option<ReqVariant>): (k: int)
    ensures -1 <= k < |items|
    ensures k >= 0 ==> LineMatches(items[k], productId, v) && forall j :: 0 <= j < k ==> !LineMatches(items[j], productId, v)
    ensures k == -1 ==> forall j :: 0 <= j < |items| ==> !LineMatches(items[j], productId, v)
  {
    FirstMatchFrom(items, productId, v, 0)
  }

  function FirstMatchFrom(items: seq<CartItem>, productId: string, v: Option<ReqVariant>, from: nat): (k: int)
    requires from <= |items|
    ensures k == -1 || from <= k < |items|
    ensures k >= 0 ==> LineMatches(items[k], productId, v) && forall j :: from <= j < k ==> !LineMatches(items[j], productId, v)
    ensures k == -1 ==> forall j :: from <= j < |items| ==> !LineMatches(items[j], productId, v)
    decreases |items| - from
  {
    if from == |items| then -1
    else if LineMatches(items[from], productId, v) then from
    else FirstMatchFrom(items, productId, v, from + 1)
  }

  /** `variant?.price || product.price`: a non-zero variant price wins. */
  function ResolvedPrice(v: Option<ReqVariant>, productPrice: int): int {
    if v.Some? && v.value.price.Some? && v.value.price.value != 0 then v.value.price.value else productPrice
  }

  function Selection(v: Option<ReqVariant>): VariantSel {
    match v
    case None => NoVariant
    case Some(rv) => VariantSel(rv.name, rv.value)
  }

  /** The line edit of addToCart: grow the first matching line (its stored
      price stays, its subtotal uses the new price) or append a new line. */
  function AddLine(items: seq<CartItem>, productId: string, v: Option<ReqVariant>, quantity: int, price: int): seq<CartItem> {
    var i := FirstMatch(items, productId, v);
    if i >= 0 then
      var q := items[i].quantity + quantity;
      items[i := items[i].(quantity := q, subtotal := q * price)]
    else items + [CartItem(productId, Selection(v), quantity, price, quantity * price)]
  }

  /** The line edit of updateCartItem: the first line of the product gets the
      new quantity and a subtotal at its stored price. */
  function SetQuantity(items: seq<CartItem>, i: int, quantity: int): seq<CartItem>
    requires 0 <= i < |items|
  {
    items[i := items[i].(quantity := quantity, subtotal := quantity * items[i].price)]
  }

  /** `cart.save()` of the cart found at index k (or of a new cart when k is -1). */
  function Persist(db: Db, k: int, c: Cart): (r: Outcome<Cart>)
    requires -1 <= k < |db.carts|
    ensures r.result.Err? ==> r.db == db
    ensures r.result.Ok? ==> r.result.value == PreSave(c) && r.db.products == db.products && r.db.orders == db.orders
    ensures r.result.Ok? ==> r.db.carts == if k >= 0 then db.carts[k := r.result.value] else db.carts + [r.result.value]
    ensures r.result.Ok? <==> CartOk(c)
  {
    match Save(c)
    case Ok(s) => Outcome(db.(carts := if k >= 0 then db.carts[k := s] else db.carts + [s]), Ok(s))
    case Err(e) => Outcome(db, Err(e))
  }

  /** `getCart`: the owner's cart as stored, or a new empty one that is saved. */
  function GetCart(db: Db, owner: string, now: int): (r: Outcome<Cart>)
    ensures r.result.Ok?
  {
    var k := CartIndex(db.carts, owner);
    if k >= 0 then Outcome(db, Ok(db.carts[k]))
    else
      NewCartSaves(owner, now);
      Persist(db, -1, NewCart(owner, now))
  }

  /** `addToCart`, after the route has checked the body against `addToCartSchema`. */
  function AddToCart(db: Db, owner: string, body: Body, now: int): (r: Outcome<Cart>)
    ensures r.result.Err? ==> r.db == db
  {
    if !CartSchema.AddToCartOk(body) then Outcome(db, Err(Invalid("Validation failed")))
    else
      var productId := body["productId"].s;
      var quantity := body["quantity"].n;
      var v := RequestVariant(body);
      if productId !in db.products then Outcome(db, Err(NotFound("Product not found")))
      else
        var k := CartIndex(db.carts, owner);
        var cart := if k >= 0 then db.carts[k] else NewCart(owner, now);
        var price := ResolvedPrice(v, db.products[productId].price);
        Persist(db, k, PreSave(cart.(items := AddLine(cart.items, productId, v, quantity, price))))
  }

  /** `updateCartItem`, after the route has checked the body against `updateCartItemSchema`. */
  function UpdateCartItem(db: Db, owner: string, productId: string, body: Body): (r: Outcome<Cart>)
    ensures r.result.Err? ==> r.db == db
  {
    if !CartSchema.UpdateCartItemOk(body) then Outcome(db, Err(Invalid("Validation failed")))
    else
      var k := CartIndex(db.carts, owner);
      if k < 0 then Outcome(db, Err(NotFound("Cart not found")))
      else
        var cart := db.carts[k];
        var i := FirstMatch(cart.items, productId, None);
        if i < 0 then Outcome(db, Err(NotFound("Item not found in cart")))
        else Persist(db, k, PreSave(cart.(items := SetQuantity(cart.items, i, body["quantity"].n))))
  }

  /** `removeCartItem`. */
  function RemoveCartItem(db: Db, owner: string, productId: string): (r: Outcome<Cart>)
    ensures r.result.Err? ==> r.db == db
  {
    var k := CartIndex(db.carts, owner);
    if k < 0 then Outcome(db, Err(NotFound("Cart not found")))
    else
      var cart := db.carts[k];
      var i := FirstMatch(cart.items, productId, None);
      if i < 0 then Outcome(db, Err(NotFound("Item not found in cart")))
      else Persist(db, k, PreSave(cart.(items := cart.items[..i] + cart.items[i + 1..])))
  }

  /** `clearCart`: the controller zeroes subtotal and total; tax and shipping stay. */
  function ClearCart(db: Db, owner: string): (r: Outcome<Cart>)
    ensures r.result.Err? ==> r.db == db
  {
    var k := CartIndex(db.carts, owner);
    if k < 0 then Outcome(db, Err(NotFound("Cart not found")))
    else Persist(db, k, db.carts[k].(items := [], subtotal := 0, total := 0))
  }

  // ---- properties ----

  /** Saving a cart keeps the invariant. */
  lemma PersistKeepsInvariant(db: Db, k: int, c: Cart)
    requires Inv(db) && -1 <= k < |db.carts|
    ensures Inv(Persist(db, k, c).db)
  {
  }

  /** getCart returns an existing cart unchanged and writes nothing; otherwise
      it stores a new empty cart with all totals 0, expiring a week from now. */
  lemma GetCartFindsOrCreates(db: Db, owner: string, now: int)
    ensures CartIndex(db.carts, owner) >= 0 ==>
      GetCart(db, owner, now) == Outcome(db, Ok(db.carts[CartIndex(db.carts, owner)]))
    ensures CartIndex(db.carts, owner) == -1 ==>
      var c := NewCart(owner, now);
      GetCart(db, owner, now) == Outcome(db.(carts := db.carts + [c]), Ok(c))
      && c.items == [] && c.subtotal == 0 && c.tax == 0 && c.shipping == 0 && c.total == 0 && c.expiresAt == now + Week
  {
  }

  /** A valid add fails exactly when the product id is unknown or the
      resolved price is negative; an inactive product is added like any
      other. In a database that keeps its invariant the stored prices are not
      negative, so the price is negative exactly when the request carries a
      negative variant price, and then `cart.save()` rejects the line. */
  lemma AddToCartOutcome(db: Db, owner: string, body: Body, now: int)
    requires Inv(db) && CartSchema.AddToCartOk(body)
    ensures var productId := body["productId"].s;
      AddToCart(db, owner, body, now).result.Err? <==>
        productId !in db.products || ResolvedPrice(RequestVariant(body), db.products[productId].price) < 0
    ensures var productId := body["productId"].s;
      productId in db.products ==>
        (ResolvedPrice(RequestVariant(body), db.products[productId].price) < 0 <==>
          RequestVariant(body).Some? && RequestVariant(body).value.price.Some? && RequestVariant(body).value.price.value < 0)
    ensures body["productId"].s !in db.products ==> AddToCart(db, owner, body, now) == Outcome(db, Err(NotFound("Product not found")))
    ensures var productId := body["productId"].s;
      productId in db.products && ResolvedPrice(RequestVariant(body), db.products[productId].price) < 0 ==>
        AddToCart(db, owner, body, now) == Outcome(db, Err(Invalid("Cart validation failed")))
  {
    var productId := body["productId"].s;
    if productId in db.products {
      var v := RequestVariant(body);
      var k := CartIndex(db.carts, owner);
      var cart := if k >= 0 then db.carts[k] else NewCart(owner, now);
      var price := ResolvedPrice(v, db.products[productId].price);
      if price >= 0 {
        AddLineKeepsCartOk(cart, productId, v, body["quantity"].n, price);
      } else {
        AddLineRejectsNegativePrice(cart, productId, v, body["quantity"].n, price);
      }
    }
  }

  /** A line of at least one unit at a negative price makes the cart fail
      validation, whether it grows an existing line or is appended. */
  lemma AddLineRejectsNegativePrice(cart: Cart, productId: string, v: Option<ReqVariant>, q: int, price: int)
    requires ItemsOk(cart.items) && q >= 1 && price < 0
    ensures !CartOk(PreSave(cart.(items := AddLine(cart.items, productId, v, q, price))))
  {
    var items := AddLine(cart.items, productId, v, q, price);
    var i := FirstMatch(cart.items, productId, v);
    AddLineEffect(cart.items, productId, v, q, price);
    if i >= 0 {
      assert cart.items[i].quantity + q >= 1;
      assert items[i].subtotal < 0;
      assert !ItemOk(items[i]);
    } else {
      assert !ItemOk(items[|cart.items|]);
    }
  }

  /** Adding a line of at least one unit at a price that is not negative to a
      valid cart leaves a cart that passes validation. */
  lemma AddLineKeepsCartOk(cart: Cart, productId: string, v: Option<ReqVariant>, q: int, price: int)
    requires CartOk(cart) && q >= 1 && price >= 0
    ensures CartOk(PreSave(cart.(items := AddLine(cart.items, productId, v, q, price))))
  {
    var items := AddLine(cart.items, productId, v, q, price);
    var i := FirstMatch(cart.items, productId, v);
    if i >= 0 {
      assert items[i].quantity >= 1;
      assert items[i].subtotal == items[i].quantity * price >= 0;
    } else {
      assert q * price >= 0;
    }
    assert ItemsOk(items);
    SumNonNegative(items);
  }

  /** On a match the first matching line grows by the requested quantity, its
      subtotal is the new quantity times the resolved price, its stored price
      is kept and the other lines are untouched; with no match a new line is
      appended after the existing ones. */
  lemma AddLineEffect(items: seq<CartItem>, productId: string, v: Option<ReqVariant>, quantity: int, price: int)
    ensures var i := FirstMatch(items, productId, v);
      i >= 0 ==>
        var r := AddLine(items, productId, v, quantity, price);
        |r| == |items| && r[i].quantity == items[i].quantity + quantity
        && r[i].subtotal == (items[i].quantity + quantity) * price
        && r[i].price == items[i].price && r[i].product == items[i].product && r[i].variant == items[i].variant
        && forall j :: 0 <= j < |items| && j != i ==> r[j] == items[j]
    ensures FirstMatch(items, productId, v) == -1 ==>
      AddLine(items, productId, v, quantity, price) == items + [CartItem(productId, Selection(v), quantity, price, quantity * price)]
  {
  }

  /** With no variant in the request, the first line of the product is grown,
      whatever variant it carries. */
  lemma AddWithoutVariantMergesAnyLine(items: seq<CartItem>, productId: string, quantity: int, price: int, i: int)
    requires 0 <= i < |items| && items[i].product == productId
    requires forall j :: 0 <= j < i ==> items[j].product != productId
    ensures |AddLine(items, productId, None, quantity, price)| == |items|
    ensures AddLine(items, productId, None, quantity, price)[i].quantity == items[i].quantity + quantity
    ensures AddLine(items, productId, None, quantity, price)[i].variant == items[i].variant
  {
    assert FirstMatch(items, productId, None) == i;
  }

  /** With a variant, a line of the same product with another variant is not
      grown: a new line is appended. */
  lemma AddWithOtherVariantAppends(items: seq<CartItem>, productId: string, v: ReqVariant, quantity: int, price: int)
    requires forall j :: 0 <= j < |items| && items[j].product == productId ==> items[j].variant.name != v.name
    ensures |AddLine(items, productId, Some(v), quantity, price)| == |items| + 1
  {
  }

  /** A successful add stores a cart whose subtotal grew by exactly the change
      in the edited line's subtotal. */
  lemma AddToCartSubtotal(items: seq<CartItem>, productId: string, v: Option<ReqVariant>, quantity: int, price: int)
    ensures var i := FirstMatch(items, productId, v);
      SumSubtotals(AddLine(items, productId, v, quantity, price))
        == SumSubtotals(items) + (if i >= 0 then (items[i].quantity + quantity) * price - items[i].subtotal else quantity * price)
  {
    var i := FirstMatch(items, productId, v);
    if i >= 0 {
      var q := items[i].quantity + quantity;
      SumUpdate(items, i, items[i].(quantity := q, subtotal := q * price));
    } else {
      SumAppend(items, CartItem(productId, Selection(v), quantity, price, quantity * price));
    }
  }

  /** updateCartItem edits the first line with the product id, whatever its
      variant: the quantity is set, the subtotal is quantity times the stored
      price, the other lines stay, and the cart subtotal moves by the change. */
  lemma UpdateCartItemEffect(db: Db, owner: string, productId: string, body: Body)
    requires Inv(db) && CartSchema.UpdateCartItemOk(body)
    requires CartIndex(db.carts, owner) >= 0
    requires FirstMatch(db.carts[CartIndex(db.carts, owner)].items, productId, None) >= 0
    ensures var k := CartIndex(db.carts, owner);
      var items := db.carts[k].items;
      var i := FirstMatch(items, productId, None);
      var q := body["quantity"].n;
      var r := UpdateCartItem(db, owner, productId, body);
      items[i].price >= 0 ==>
        r.result.Ok? && r.result.value.items == items[i := items[i].(quantity := q, subtotal := q * items[i].price)]
        && r.result.value.subtotal == db.carts[k].subtotal - items[i].subtotal + q * items[i].price
        && r.result.value.total == r.result.value.subtotal + db.carts[k].tax + db.carts[k].shipping
  {
    var k := CartIndex(db.carts, owner);
    var items := db.carts[k].items;
    var i := FirstMatch(items, productId, None);
    var q := body["quantity"].n;
    var it := items[i].(quantity := q, subtotal := q * items[i].price);
    SumUpdate(items, i, it);
    if items[i].price >= 0 {
      assert q * items[i].price >= 0;
      assert ItemsOk(items[i := it]);
      SumNonNegative(items[i := it]);
    }
  }

  /** removeCartItem deletes exactly the first line with the product id, keeps
      the others in order, and lowers the subtotal by that line's subtotal. */
  lemma RemoveCartItemEffect(db: Db, owner: string, productId: string)
    requires Inv(db)
    requires CartIndex(db.carts, owner) >= 0
    requires FirstMatch(db.carts[CartIndex(db.carts, owner)].items, productId, None) >= 0
    ensures var k := CartIndex(db.carts, owner);
      var items := db.carts[k].items;
      var i := FirstMatch(items, productId, None);
      var r := RemoveCartItem(db, owner, productId);
      r.result.Ok? && r.result.value.items == items[..i] + items[i + 1..]
      && |r.result.value.items| == |items| - 1
      && r.result.value.subtotal == db.carts[k].subtotal - items[i].subtotal
  {
    var k := CartIndex(db.carts, owner);
    var items := db.carts[k].items;
    var i := FirstMatch(items, productId, None);
    var rest := items[..i] + items[i + 1..];
    assert ItemsOk(rest) by {
      forall j | 0 <= j < |rest| ensures ItemOk(rest[j]) {
        if j < i { assert rest[j] == items[j]; } else { assert rest[j] == items[j + 1]; }
      }
    }
    SumNonNegative(rest);
    SumRemove(items, i);
  }

  /** clearCart succeeds on any stored cart: the lines go, subtotal is 0, tax
      and shipping stay, and total is stored as tax + shipping, not 0. */
  lemma ClearCartKeepsTaxAndShipping(db: Db, owner: string)
    requires Inv(db) && CartIndex(db.carts, owner) >= 0
    ensures var c := db.carts[CartIndex(db.carts, owner)];
      ClearCart(db, owner).result == Ok(c.(items := [], subtotal := 0, total := c.tax + c.shipping))
  {
  }

  /** Clearing a missing cart fails and changes nothing. */
  lemma ClearCartNeedsCart(db: Db, owner: string)
    requires CartIndex(db.carts, owner) == -1
    ensures ClearCart(db, owner) == Outcome(db, Err(NotFound("Cart not found")))
  {
  }

  /** Saving the owner's cart in place, or a first cart for an owner who has
      none, keeps one cart per owner. */
  lemma PersistKeepsOwnersUnique(db: Db, k: int, c: Cart)
    requires OwnersUnique(db.carts) && -1 <= k < |db.carts|
    requires k >= 0 ==> c.owner == db.carts[k].owner
    requires k == -1 ==> forall j :: 0 <= j < |db.carts| ==> db.carts[j].owner != c.owner
    ensures OwnersUnique(Persist(db, k, c).db.carts)
  {
  }

  // Each cart operation keeps the invariant and, since a cart is created only
  // for an owner who has none, never gives an owner a second cart.

  lemma GetCartKeepsInvariant(db: Db, owner: string, now: int)
    ensures Inv(db) ==> Inv(GetCart(db, owner, now).db)
    ensures OwnersUnique(db.carts) ==> OwnersUnique(GetCart(db, owner, now).db.carts)
  {
    if CartIndex(db.carts, owner) == -1 {
      if Inv(db) { PersistKeepsInvariant(db, -1, NewCart(owner, now)); }
      if OwnersUnique(db.carts) { PersistKeepsOwnersUnique(db, -1, NewCart(owner, now)); }
    }
  }

  lemma AddToCartKeepsInvariant(db: Db, owner: string, body: Body, now: int)
    ensures Inv(db) ==> Inv(AddToCart(db, owner, body, now).db)
    ensures OwnersUnique(db.carts) ==> OwnersUnique(AddToCart(db, owner, body, now).db.carts)
  {
    if CartSchema.AddToCartOk(body) && body["productId"].s in db.products {
      var k := CartIndex(db.carts, owner);
      var v := RequestVariant(body);
      var cart := if k >= 0 then db.carts[k] else NewCart(owner, now);
      var price := ResolvedPrice(v, db.products[body["productId"].s].price);
      var c := PreSave(cart.(items := AddLine(cart.items, body["productId"].s, v, body["quantity"].n, price)));
      if Inv(db) { PersistKeepsInvariant(db, k, c); }
      if OwnersUnique(db.carts) { PersistKeepsOwnersUnique(db, k, c); }
    }
  }

  lemma UpdateCartItemKeepsInvariant(db: Db, owner: string, productId: string, body: Body)
    ensures Inv(db) ==> Inv(UpdateCartItem(db, owner, productId, body).db)
    ensures OwnersUnique(db.carts) ==> OwnersUnique(UpdateCartItem(db, owner, productId, body).db.carts)
  {
    var k := CartIndex(db.carts, owner);
    if CartSchema.UpdateCartItemOk(body) && k >= 0 {
      var cart := db.carts[k];
      var i := FirstMatch(cart.items, productId, None);
      if i >= 0 {
        var c := PreSave(cart.(items := SetQuantity(cart.items, i, body["quantity"].n)));
        if Inv(db) { PersistKeepsInvariant(db, k, c); }
        if OwnersUnique(db.carts) { PersistKeepsOwnersUnique(db, k, c); }
      }
    }
  }

  lemma RemoveCartItemKeepsInvariant(db: Db, owner: string, productId: string)
    ensures Inv(db) ==> Inv(RemoveCartItem(db, owner, productId).db)
    ensures OwnersUnique(db.carts) ==> OwnersUnique(RemoveCartItem(db, owner, productId).db.carts)
  {
    var k := CartIndex(db.carts, owner);
    if k >= 0 {
      var cart := db.carts[k];
      var i := FirstMatch(cart.items, productId, None);
      if i >= 0 {
        var c := PreSave(cart.(items := cart.items[..i] + cart.items[i + 1..]));
        if Inv(db) { PersistKeepsInvariant(db, k, c); }
        if OwnersUnique(db.carts) { PersistKeepsOwnersUnique(db, k, c); }
      }
    }
  }

  lemma ClearCartKeepsInvariant(db: Db, owner: string)
    ensures Inv(db) ==> Inv(ClearCart(db, owner).db)
    ensures OwnersUnique(db.carts) ==> OwnersUnique(ClearCart(db, owner).db.carts)
  {
    var k := CartIndex(db.carts, owner);
    if k >= 0 {
      var c := db.carts[k].(items := [], subtotal := 0, total := 0);
      if Inv(db) { PersistKeepsInvariant(db, k, c); }
      if OwnersUnique(db.carts) { PersistKeepsOwnersUnique(db, k, c); }
    }
  }
}
