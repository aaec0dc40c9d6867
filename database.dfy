/** The three collections the controllers work on, the invariant the stored
    documents keep, and the `findOne` lookups. */
module Database {
  import opened Wrappers
  import opened ProductModel
  import opened CartModel
  import opened OrderModel

  /** Products by id, carts in storage order (the owner index is not unique,
      so an owner may hold several), orders by id, and the next fresh order id. */
  datatype Db = Db(products: map<string, Product>, carts: seq<Cart>, orders: map<nat, Order>, nextOrderId: nat)

  /** What a controller leaves behind: the new state and its reply. On an error
      the state is the one it started from, as the transaction is rolled back. */
  datatype Outcome<T> = Outcome(db: Db, result: Result<T, Error>)

  /** Every stored cart passed validation and has consistent totals, every
      stored product meets its schema apart from the stock minimum, every
      stored order is valid, order numbers and skus are unique, and order ids
      are below the next fresh id. Stock is not part of it: it can go negative. */
  predicate Inv(db: Db) {
    && (forall i :: 0 <= i < |db.carts| ==> CartOk(db.carts[i]) && TotalsConsistent(db.carts[i]))
    && (forall k :: k in db.products ==> ProductFieldsOk(db.products[k]))
    && (forall k :: k in db.orders ==> k < db.nextOrderId && OrderOk(db.orders[k]))
    && OrderNumbersUnique(db.orders)
    && SkusUnique(db.products)
  }

  /** `Cart.findOne({user: owner})`: the first cart of the owner, or -1. */
  function CartIndex(carts: seq<Cart>, owner: string): (k: int)
    ensures -1 <= k < |carts|
    ensures k >= 0 ==> carts[k].owner == owner && forall j :: 0 <= j < k ==> carts[j].owner != owner
    ensures k == -1 ==> forall j :: 0 <= j < |carts| ==> carts[j].owner != owner
  {
    CartIndexFrom(carts, owner, 0)
  }

  function CartIndexFrom(carts: seq<Cart>, owner: string, from: nat): (k: int)
    requires from <= |carts|
    ensures k == -1 || from <= k < |carts|
    ensures k >= 0 ==> carts[k].owner == owner && forall j :: from <= j < k ==> carts[j].owner != owner
    ensures k == -1 ==> forall j :: from <= j < |carts| ==> carts[j].owner != owner
    decreases |carts| - from
  {
    if from == |carts| then -1
    else if carts[from].owner == owner then from
    else CartIndexFrom(carts, owner, from + 1)
  }

  /** `Cart.findByIdAndDelete`: the cart at index k is removed, the others keep their order. */
  function RemoveCart(carts: seq<Cart>, k: int): (r: seq<Cart>)
    requires 0 <= k < |carts|
    ensures |r| == |carts| - 1
    ensures forall j :: 0 <= j < k ==> r[j] == carts[j]
    ensures forall j :: k <= j < |r| ==> r[j] == carts[j + 1]
  {
    carts[..k] + carts[k + 1..]
  }

  /** At most one cart per owner. The database does not enforce this. */
  predicate OwnersUnique(carts: seq<Cart>) {
    forall i, j :: 0 <= i < j < |carts| ==> carts[i].owner != carts[j].owner
  }

  /** A later cart of the same owner is never found. */
  lemma ShadowedCart(carts: seq<Cart>, owner: string, j: int)
    requires 0 <= j < |carts| && carts[j].owner == owner
    requires exists i :: 0 <= i < j && carts[i].owner == owner
    ensures CartIndex(carts, owner) < j
  {
  }
}
