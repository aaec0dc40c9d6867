/** The `Cart` document: line and cart bounds, the 7-day expiry default and
    the pre-save hook that recomputes the totals. */
module CartModel {
  import opened Wrappers

  /** The variant recorded on a line; a line added without one has neither field. */
  datatype VariantSel = VariantSel(name: Option<string>, value: Option<string>)

  const NoVariant := VariantSel(None, None)

  datatype CartItem = CartItem(product: string, variant: VariantSel, quantity: int, price: int, subtotal: int)

  /** A cart; `expiresAt` is in milliseconds since the epoch. */
  datatype Cart = Cart(
    owner: string,
    items: seq<CartItem>,
    subtotal: int,
    tax: int,
    shipping: int,
    total: int,
    expiresAt: int)

  /** Seven days in milliseconds. */
  const Week: int := 7 * 24 * 60 * 60 * 1000

  /** `items.reduce((sum, item) => sum + item.subtotal, 0)`. */
  function SumSubtotals(items: seq<CartItem>): int {
    if items == [] then 0 else SumSubtotals(items[..|items| - 1]) + items[|items| - 1].subtotal
  }

  /** Quantity at least 1, price and subtotal not negative. */
  predicate ItemOk(it: CartItem) { it.quantity >= 1 && it.price >= 0 && it.subtotal >= 0 }

  predicate ItemsOk(items: seq<CartItem>) { forall i :: 0 <= i < |items| ==> ItemOk(items[i]) }

  predicate CartOk(c: Cart) {
    ItemsOk(c.items) && c.subtotal >= 0 && c.tax >= 0 && c.shipping >= 0 && c.total >= 0
  }

  /** The stored totals agree with the lines. */
  predicate TotalsConsistent(c: Cart) {
    c.subtotal == SumSubtotals(c.items) && c.total == c.subtotal + c.tax + c.shipping
  }

  /** A new empty cart, with every total 0 and an expiry a week after `now`. */
  function NewCart(owner: string, now: int): (c: Cart)
    ensures c.owner == owner && c.items == [] && c.expiresAt == now + Week
    ensures CartOk(c) && TotalsConsistent(c) && c.tax == 0 && c.shipping == 0 && c.total == 0
  {
    Cart(owner, [], 0, 0, 0, 0, now + Week)
  }

  lemma {:induction false} SumNonNegative(items: seq<CartItem>)
    requires ItemsOk(items)
    ensures SumSubtotals(items) >= 0
  {
    if items != [] {
      assert ItemsOk(items[..|items| - 1]);
      SumNonNegative(items[..|items| - 1]);
    }
  }

  lemma {:induction false} SumAppend(items: seq<CartItem>, it: CartItem)
    ensures SumSubtotals(items + [it]) == SumSubtotals(items) + it.subtotal
  {
    assert (items + [it])[..|items|] == items;
  }

  lemma {:induction false} SumUpdate(items: seq<CartItem>, i: int, it: CartItem)
    requires 0 <= i < |items|
    ensures SumSubtotals(items[i := it]) == SumSubtotals(items) - items[i].subtotal + it.subtotal
  {
    var n := |items| - 1;
    if i < n {
      assert items[i := it][..n] == items[..n][i := it];
      SumUpdate(items[..n], i, it);
    } else {
      assert items[i := it][..n] == items[..n];
    }
  }

  lemma {:induction false} SumRemove(items: seq<CartItem>, i: int)
    requires 0 <= i < |items|
    ensures SumSubtotals(items[..i] + items[i + 1..]) == SumSubtotals(items) - items[i].subtotal
  {
    var n := |items| - 1;
    if i == n {
      assert items[..i] + items[i + 1..] == items[..n];
    } else {
      var r := items[..i] + items[i + 1..];
      assert r[..|r| - 1] == items[..n][..i] + items[..n][i + 1..];
      assert r[|r| - 1] == items[n];
      SumRemove(items[..n], i);
    }
  }

  /** The pre-save hook: `subtotal` becomes the sum of the line subtotals and
      `total` becomes subtotal + tax + shipping, whatever they held before. */
  function PreSave(c: Cart): (r: Cart)
    ensures TotalsConsistent(r)
    ensures r.owner == c.owner && r.items == c.items && r.tax == c.tax && r.shipping == c.shipping && r.expiresAt == c.expiresAt
  {
    var s := SumSubtotals(c.items);
    c.(subtotal := s, total := s + c.tax + c.shipping)
  }

  /** `cart.save()`: the document is validated as the caller left it, then the
      hook recomputes the totals. What is stored is always valid and consistent. */
  function Save(c: Cart): (r: Result<Cart, Error>)
    ensures r.Ok? <==> CartOk(c)
    ensures r.Ok? ==> r.value == PreSave(c)
    ensures r.Ok? ==> CartOk(r.value) && TotalsConsistent(r.value)
  {
    if CartOk(c) then
      SumNonNegative(c.items);
      Ok(PreSave(c))
    else Err(Invalid("Cart validation failed"))
  }

  /** Saving ignores the totals the caller set: a cart cleared with subtotal and
      total set to 0 is stored with total = tax + shipping. */
  lemma ClearedCartTotal(c: Cart)
    requires CartOk(c)
    ensures Save(c.(items := [], subtotal := 0, total := 0)) == Ok(c.(items := [], subtotal := 0, total := c.tax + c.shipping))
  {
  }

  /** A new cart is stored as it is. */
  lemma NewCartSaves(owner: string, now: int)
    ensures Save(NewCart(owner, now)) == Ok(NewCart(owner, now))
  {
  }
}
