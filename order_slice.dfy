/** The client's order store: a reducer over `{order, orders, userOrders,
    loading, error}` driven by the order thunks' life cycle actions. */
module OrderSlice {
  import opened Wrappers
  import opened Values

  /** An order as the client holds it: its `_id` and the rest of the document. */
  datatype ClientOrder = ClientOrder(id: string, details: Value)

  datatype OrderState = OrderState(
    order: Option<ClientOrder>,
    orders: seq<ClientOrder>,
    userOrders: seq<ClientOrder>,
    loading: bool,
    error: Option<string>)

  const Initial := OrderState(None, [], [], false, None)

  /** The thunks whose pending and rejected actions the slice handles. */
  datatype Thunk = CreateOrder | FetchOrders | FetchUserOrders | FetchOrderById | UpdateOrderStatus | CancelOrder

  datatype Action =
    | ClearOrderError
    | ClearCurrentOrder
    | ResetOrderState
    | Pending(thunk: Thunk)
    | Rejected(thunk: Thunk, message: string)
    | CreateOrderFulfilled(created: ClientOrder)
    | FetchOrdersFulfilled(all: seq<ClientOrder>)
    | FetchUserOrdersFulfilled(mine: seq<ClientOrder>)
    | FetchOrderByIdFulfilled(found: ClientOrder)
    | UpdateOrderStatusFulfilled(updated: ClientOrder)
    | CancelOrderFulfilled(cancelled: ClientOrder)

  /** `findIndex` by `_id`: the first position holding `id`, or -1. */
  function IndexById(xs: seq<ClientOrder>, id: string): (i: int)
    ensures -1 <= i < |xs|
    ensures i >= 0 ==> xs[i].id == id
    ensures forall j :: 0 <= j < |xs| && (i < 0 || j < i) ==> xs[j].id != id
  {
    if xs == [] then -1
    else if xs[0].id == id then 0
    else
      var k := IndexById(xs[1..], id);
      if k < 0 then -1 else k + 1
  }

  /** The first element with the same `_id` as `o` replaced by `o`. */
  function ReplaceFirstById(xs: seq<ClientOrder>, o: ClientOrder): seq<ClientOrder> {
    var i := IndexById(xs, o.id);
    if i < 0 then xs else xs[i := o]
  }

  /** A fulfilled update or cancellation: `o` replaces the first match in
      both lists and the current order when its `_id` is the same. */
  function ApplyUpdated(s: OrderState, o: ClientOrder): OrderState {
    s.(loading := false,
       orders := ReplaceFirstById(s.orders, o),
       userOrders := ReplaceFirstById(s.userOrders, o),
       order := if s.order.Some? && s.order.value.id == o.id then Some(o) else s.order)
  }

  /** The slice's reducer. */
  function Reduce(s: OrderState, a: Action): OrderState {
    match a
    case ClearOrderError => s.(error := None)
    case ClearCurrentOrder => s.(order := None)
    case ResetOrderState => Initial
    case Pending(_) => s.(loading := true, error := None)
    case Rejected(_, m) => s.(loading := false, error := Some(m))
    case CreateOrderFulfilled(o) => s.(loading := false, order := Some(o))
    case FetchOrdersFulfilled(os) => s.(loading := false, orders := os)
    case FetchUserOrdersFulfilled(os) => s.(loading := false, userOrders := os)
    case FetchOrderByIdFulfilled(o) => s.(loading := false, order := Some(o))
    case UpdateOrderStatusFulfilled(o) => ApplyUpdated(s, o)
    case CancelOrderFulfilled(o) => ApplyUpdated(s, o)
  }

  /** The state after a run of actions. */
  function ReduceAll(s: OrderState, actions: seq<Action>): OrderState
    decreases |actions|
  {
    if actions == [] then s else ReduceAll(Reduce(s, actions[0]), actions[1..])
  }

  /** The replacement keeps the length, changes nothing when no element has
      the `_id`, and otherwise puts `o` exactly at the first match. */
  lemma ReplaceFirstByIdEffect(xs: seq<ClientOrder>, o: ClientOrder)
    ensures var r := ReplaceFirstById(xs, o);
      && |r| == |xs|
      && ((forall j :: 0 <= j < |xs| ==> xs[j].id != o.id) ==> r == xs)
      && (forall j :: 0 <= j < |xs| && xs[j].id == o.id && (forall m :: 0 <= m < j ==> xs[m].id != o.id) ==>
            r == xs[j := o])
  {
  }

  /** Replacing twice with the same order is replacing once. */
  lemma ReplaceFirstByIdIdempotent(xs: seq<ClientOrder>, o: ClientOrder)
    ensures ReplaceFirstById(ReplaceFirstById(xs, o), o) == ReplaceFirstById(xs, o)
  {
    var i := IndexById(xs, o.id);
    if i >= 0 {
      var ys := xs[i := o];
      var k := IndexById(ys, o.id);
      assert forall j :: 0 <= j < i ==> ys[j] == xs[j];
      IndexByIdUnique(ys, o.id, i);
    }
  }

  /** Every pending action raises `loading` and clears `error`; every
      rejection lowers `loading` and records its message; neither touches
      the orders. */
  lemma LifecycleFlags(s: OrderState, t: Thunk, m: string)
    ensures var p := Reduce(s, Pending(t));
      p.loading && p.error.None? && p.order == s.order && p.orders == s.orders && p.userOrders == s.userOrders
    ensures var r := Reduce(s, Rejected(t, m));
      !r.loading && r.error == Some(m) && r.order == s.order && r.orders == s.orders && r.userOrders == s.userOrders
  {
  }

  /** A request that succeeds ends with `loading` false and no error,
      whatever the state before it. */
  lemma PendingThenFulfilledClearsError(s: OrderState, t: Thunk, a: Action)
    requires a.CreateOrderFulfilled? || a.FetchOrdersFulfilled? || a.FetchUserOrdersFulfilled?
          || a.FetchOrderByIdFulfilled? || a.UpdateOrderStatusFulfilled? || a.CancelOrderFulfilled?
    ensures var r := ReduceAll(s, [Pending(t), a]);
      !r.loading && r.error.None?
  {
    var p := Reduce(s, Pending(t));
    assert [Pending(t), a][1..] == [a];
    assert [a][1..] == [];
    assert ReduceAll(s, [Pending(t), a]) == ReduceAll(p, [a]);
    assert ReduceAll(p, [a]) == Reduce(p, a);
  }

  /** `resetOrderState` restores the initial state from any state. */
  lemma ResetRestoresInitial(s: OrderState)
    ensures Reduce(s, ResetOrderState) == Initial
  {
  }

  /** The two clearing reducers change only their own field. */
  lemma ClearersChangeOneField(s: OrderState)
    ensures Reduce(s, ClearOrderError) == s.(error := None)
    ensures Reduce(s, ClearCurrentOrder) == s.(order := None)
  {
  }

  /** A fulfilled update or cancellation keeps both list lengths, replaces
      the current order exactly when its `_id` matches, and is idempotent. */
  lemma UpdatedOrderEffect(s: OrderState, o: ClientOrder)
    ensures var r := Reduce(s, UpdateOrderStatusFulfilled(o));
      && r == Reduce(s, CancelOrderFulfilled(o))
      && |r.orders| == |s.orders| && |r.userOrders| == |s.userOrders|
      && (r.order == Some(o) <==> s.order.Some? && s.order.value.id == o.id)
      && ((s.order.None? || s.order.value.id != o.id) ==> r.order == s.order)
      && r.error == s.error && !r.loading
      && Reduce(r, UpdateOrderStatusFulfilled(o)) == r
  {
    ReplaceFirstByIdIdempotent(s.orders, o);
    ReplaceFirstByIdIdempotent(s.userOrders, o);
  }

  /** The `findIndex` over a list of orders. */
  method FindIndex(xs: seq<ClientOrder>, id: string) returns (i: int)
    ensures i == IndexById(xs, id)
  {
    i := 0;
    while i < |xs| && xs[i].id != id
      invariant 0 <= i <= |xs|
      invariant forall j :: 0 <= j < i ==> xs[j].id != id
    {
      i := i + 1;
    }
    if i == |xs| {
      i := -1;
    }
    IndexByIdUnique(xs, id, i);
  }

  /** The order store of the client. */
  class OrderStore {
    var order: Option<ClientOrder>
    var orders: seq<ClientOrder>
    var userOrders: seq<ClientOrder>
    var loading: bool
    var error: Option<string>

    function State(): OrderState
      reads this
    {
      OrderState(order, orders, userOrders, loading, error)
    }

    constructor ()
      ensures State() == Initial
    {
      order := None;
      orders := [];
      userOrders := [];
      loading := false;
      error := None;
    }

    /** The fulfilled update and cancellation reducers. */
    method Updated(o: ClientOrder)
      modifies this
      ensures State() == ApplyUpdated(old(State()), o)
    {
      loading := false;
      var orderIndex := FindIndex(orders, o.id);
      if orderIndex != -1 {
        orders := orders[orderIndex := o];
      }
      var userOrderIndex := FindIndex(userOrders, o.id);
      if userOrderIndex != -1 {
        userOrders := userOrders[userOrderIndex := o];
      }
      if order.Some? && order.value.id == o.id {
        order := Some(o);
      }
    }

    method Dispatch(a: Action)
      modifies this
      ensures State() == Reduce(old(State()), a)
    {
      match a
      case ClearOrderError =>
        error := None;
      case ClearCurrentOrder =>
        order := None;
      case ResetOrderState =>
        order := None;
        orders := [];
        userOrders := [];
        loading := false;
        error := None;
      case Pending(_) =>
        loading := true;
        error := None;
      case Rejected(_, m) =>
        loading := false;
        error := Some(m);
      case CreateOrderFulfilled(o) =>
        loading := false;
        order := Some(o);
      case FetchOrdersFulfilled(os) =>
        loading := false;
        orders := os;
      case FetchUserOrdersFulfilled(os) =>
        loading := false;
        userOrders := os;
      case FetchOrderByIdFulfilled(o) =>
        loading := false;
        order := Some(o);
      case UpdateOrderStatusFulfilled(o) =>
        Updated(o);
      case CancelOrderFulfilled(o) =>
        Updated(o);
    }
  }

  /** The first matching position is determined by its two defining properties. */
  lemma IndexByIdUnique(xs: seq<ClientOrder>, id: string, i: int)
    requires -1 <= i < |xs|
    requires i >= 0 ==> xs[i].id == id
    requires forall j :: 0 <= j < |xs| && (i < 0 || j < i) ==> xs[j].id != id
    ensures i == IndexById(xs, id)
  {
  }
}
