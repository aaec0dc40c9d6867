/** The client's cart store: a reducer over `{cart, loading, error}`, and
    the request bodies its thunks send. */
module CartSlice {
  import opened Wrappers
  import opened Values

  datatype CartState = CartState(cart: Option<Value>, loading: bool, error: Option<string>)

  const Initial := CartState(None, false, None)

  /** The cart thunks. */
  datatype Thunk = FetchCart | AddToCart | UpdateCartItem | RemoveFromCart | ClearCart

  /** The thunks whose answer is the whole cart: all but `clearCart`. */
  type CartThunk = t: Thunk | !t.ClearCart? witness FetchCart

  datatype Action =
    | ClearCartError
    | Pending(thunk: Thunk)
    | Rejected(thunk: Thunk, message: string)
    /** Fetch, add, update and remove answer with the whole cart. */
    | CartFulfilled(answering: CartThunk, payload: Value)
    | ClearCartFulfilled

  /** The slice's reducer. */
  function Reduce(s: CartState, a: Action): CartState {
    match a
    case ClearCartError => s.(error := None)
    case Pending(_) => s.(loading := true, error := None)
    case Rejected(_, m) => s.(loading := false, error := Some(m))
    case CartFulfilled(_, c) => s.(loading := false, cart := Some(c))
    case ClearCartFulfilled => s.(loading := false, cart := None)
  }

  /** The state after a run of actions. */
  function ReduceAll(s: CartState, actions: seq<Action>): CartState
    decreases |actions|
  {
    if actions == [] then s else ReduceAll(Reduce(s, actions[0]), actions[1..])
  }

  /** Pending clears the error, rejection records it; neither touches the cart. */
  lemma LifecycleFlags(s: CartState, t: Thunk, m: string)
    ensures var p := Reduce(s, Pending(t)); p.loading && p.error.None? && p.cart == s.cart
    ensures var r := Reduce(s, Rejected(t, m)); !r.loading && r.error == Some(m) && r.cart == s.cart
  {
  }

  /** A successful request replaces the cart with the server's answer (none
      after clearing), with no error left from earlier failures. */
  lemma RequestOutcome(s: CartState, a: CartThunk, t: Thunk, c: Value, m: string)
    ensures ReduceAll(s, [Pending(a), CartFulfilled(a, c)]) == CartState(Some(c), false, None)
    ensures ReduceAll(s, [Pending(ClearCart), ClearCartFulfilled]) == CartState(None, false, None)
    ensures ReduceAll(s, [Pending(t), Rejected(t, m)]) == s.(loading := false, error := Some(m))
  {
    var p := Reduce(s, Pending(a));
    assert ReduceAll(s, [Pending(a), CartFulfilled(a, c)]) == ReduceAll(p, [CartFulfilled(a, c)]);
    assert ReduceAll(p, [CartFulfilled(a, c)]) == ReduceAll(Reduce(p, CartFulfilled(a, c)), []);
    var q := Reduce(s, Pending(ClearCart));
    assert ReduceAll(s, [Pending(ClearCart), ClearCartFulfilled]) == ReduceAll(q, [ClearCartFulfilled]);
    assert ReduceAll(q, [ClearCartFulfilled]) == ReduceAll(Reduce(q, ClearCartFulfilled), []);
    var r := Reduce(s, Pending(t));
    assert ReduceAll(s, [Pending(t), Rejected(t, m)]) == ReduceAll(r, [Rejected(t, m)]);
    assert ReduceAll(r, [Rejected(t, m)]) == ReduceAll(Reduce(r, Rejected(t, m)), []);
  }

  /** `clearCartError` resets only the error. */
  lemma ClearErrorOnly(s: CartState)
    ensures Reduce(s, ClearCartError) == s.(error := None)
    ensures Reduce(Reduce(s, ClearCartError), ClearCartError) == Reduce(s, ClearCartError)
  {
  }

  /** A variant choice as the client sends it. */
  datatype Variant = Variant(name: string, value: string)

  /** The arguments of the add and update thunks. */
  datatype ItemRequest = ItemRequest(productId: string, quantity: int, variant: Option<Variant>)

  /** The body the update thunk sends: product and quantity, without the variant. */
  datatype UpdateBody = UpdateBody(productId: string, quantity: int)

  function AddToCartBody(req: ItemRequest): (b: ItemRequest)
    ensures b.variant == req.variant
  {
    req
  }

  function UpdateCartItemBody(req: ItemRequest): (b: UpdateBody)
    ensures b.productId == req.productId && b.quantity == req.quantity
  {
    UpdateBody(req.productId, req.quantity)
  }

  /** Adding forwards the variant; updating sends the same body whatever
      the variant, so two lines of one product that differ only in their
      variant cannot be told apart by an update. */
  lemma UpdateDropsVariant(req: ItemRequest, v: Option<Variant>)
    ensures UpdateCartItemBody(req) == UpdateCartItemBody(req.(variant := v))
    ensures AddToCartBody(req) != AddToCartBody(req.(variant := v)) <==> v != req.variant
  {
  }

  /** The cart store of the client. */
  class CartStore {
    var cart: Option<Value>
    var loading: bool
    var error: Option<string>

    function State(): CartState
      reads this
    {
      CartState(cart, loading, error)
    }

    constructor ()
      ensures State() == Initial
    {
      cart := None;
      loading := false;
      error := None;
    }

    method Dispatch(a: Action)
      modifies this
      ensures State() == Reduce(old(State()), a)
    {
      match a
      case ClearCartError =>
        error := None;
      case Pending(_) =>
        loading := true;
        error := None;
      case Rejected(_, m) =>
        loading := false;
        error := Some(m);
      case CartFulfilled(_, c) =>
        loading := false;
        cart := Some(c);
      case ClearCartFulfilled =>
        loading := false;
        cart := None;
    }
  }
}
