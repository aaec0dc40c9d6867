# Shop back end and client stores, modelled in Dafny

This project models the core of a small e-commerce application: the REST
server's cart and order controllers, its Mongoose models and zod request
schemas, the file-upload library and the request hook built on it, and the
client's Redux slices for orders, carts and products.

**Shared representation**
- A JSON request body is a `map<string, Value>`. `Values.Value` covers null, booleans, integers, strings, arrays, objects and uploaded files.
- Each zod schema is a predicate over such a body. Missing keys, wrong JSON types and unknown keys on strict schemas are all modelled.

**The database**
- `Database.Db` holds the products, the carts, the orders and an order-id counter.
- Every controller operation is a pure function in `CartOps` or `OrderOps` that returns an `Outcome`: the new database and the reply.
- When the reply is an error, the database is unchanged. This is the all-or-nothing effect of the controllers' MongoDB transactions.

**Server controllers**
- `Controllers.Store` is a class whose fields are the collections.
- Its methods update those fields in place, using loops where the controllers loop (the subtotal reduction, `findIndex`, the `$inc` of each line).
- Each method is proved equal to its `CartOps` or `OrderOps` function.
- Each method preserves the database invariant `Inv`: every stored cart and order passes its model's validation, every product meets its schema apart from the stock minimum (which `$inc` does not check), cart totals are consistent, SKUs and order numbers are unique, and the order-id counter is fresh. Carts are kept one per owner.

**File upload**
- The busboy event handlers of the upload library are the class `FileUpload.Upload`.
- The hook that copies upload results into the request is the class `UploadHook.RequestContext`.

**Client stores**
- Each Redux slice is a reducer function.
- Each also has a store class whose `Dispatch` is proved to follow that reducer.

**What the environment supplies.** These are parameters of the operations that need them:
- the clock, as `Clock` values, `YearMonth`, and the `now` millisecond count;
- the uuid generator, as `uuid`;
- `JSON.parse`, as `parse`;
- zod's e-mail check, as `isEmail`;
- the remote storage URL, as `remoteUrl`;
- the configured user roles, as `roles` and `userRole`.

## Model

| member | source | states |
|---|---|---|
| Zod.Strip | server/src/schema/authSchema.ts:3-11 | a non-strict object schema keeps exactly the declared keys the body has, with their values unchanged |
| Zod.ExpiryBoundary | server/src/schema/checkout.schema.ts:82-89 | an MM/YY expiry passes exactly when it is after the current month, so a card expiring this month is rejected |
| AddressSchema.Parse | server/src/schema/address.schema.ts:3-22 | parsing succeeds iff the body satisfies the address rules; missing country, type and isDefault get "India", "home" and false, and every other key is kept |
| AddressSchema.ParseIdempotent | server/src/schema/address.schema.ts:18-20 | parsing the result of a successful parse gives the same body again |
| CartSchema.CartItemIsAddToCart | server/src/schema/cart.schema.ts:3-23 | the cart-item schema and the add-to-cart schema accept exactly the same bodies |
| CheckoutSchema.CheckoutAcceptsNoItems | server/src/schema/checkout.schema.ts:43-55 | the nested checkout schema accepts an empty item list |
| CheckoutSchema.CheckoutRejectsUnknownKey | server/src/schema/checkout.schema.ts:3-62 | the strict checkout schema rejects any body with a key it does not declare |
| ClientAuthSchema.ParseRegisterForm | client/src/schema/authSchema.ts:3-11 | the register form parses iff its rules hold, and the result holds only the declared fields |
| ClientAuthSchema.RegisterFormFeedsServer | client/src/schema/authSchema.ts:3-11 | every register form the client accepts, once stripped, is accepted by the server's register schema (server/src/schema/authSchema.ts:3-13) |
| ClientAuthSchema.RegisterFormToleratesUnknownKey | client/src/schema/authSchema.ts:3-11 | adding an undeclared key does not change whether the register form passes |
| ClientAuthSchema.LoginSchemasAgree | client/src/schema/authSchema.ts:13-18 | the client's login form and the server's login schema (server/src/schema/authSchema.ts:15-20) accept the same bodies |
| ClientCheckoutSchema.FormIsStrictFlatCheckout | client/src/schema/checkout.schema.ts:3-36 | the client's checkout form accepts exactly what the server's flat checkout schema (server/src/schema/checkout.schema.ts:64-95) accepts |
| CheckoutScenario.CustomerPasses | server/src/schema/order.schema.ts:13-21 | a concrete customer with address passes the customer schema |
| CheckoutScenario.PaymentPasses | server/src/schema/order.schema.ts:23-35 | a concrete card payment passes the payment schema |
| CheckoutScenario.LinePasses | server/src/schema/order.schema.ts:37-47 | a concrete order line passes the item schema |
| CheckoutScenario.RequestPassesRouteSchema | server/src/schema/order.schema.ts:49-58 | a concrete nested order request passes the route's createOrderSchema |
| CheckoutScenario.RequestPassesFlatSchema | server/src/api/v1/controllers/order.controller.ts:24-41 | the same request, once flattened by the controller, passes the flat checkout schema too, so both schemas can be met at once |
| PaymentService.ClockStamp | server/src/services/payment.service.ts:10 | the timestamp part of a transaction id is one to eight decimal digits |
| PaymentService.SimulatePayment | server/src/services/payment.service.ts:1-41 | type "1" approves; "2" declines for insufficient funds; "3" is a gateway timeout; anything else is invalid; only "1" succeeds; the id is "TXN-" and the clock's last digits |
| PaymentService.TransactionIdShape | server/src/services/payment.service.ts:10-38 | every transaction id starts with "TXN-" followed by 1 to 8 digits, and a result with a failure reason never succeeds |
| ProductModel.CastVariant | server/src/models/product.model.ts:4-27 | a variant keeps its name, value, price and SKU, and its stock defaults to 0 |
| ProductModel.Cast | server/src/models/product.model.ts:29-93 | title and description are trimmed, every variant is cast in order, stock defaults to 0, and a product is active unless explicitly marked inactive |
| ProductModel.Insert | server/src/models/product.model.ts:64-68 | an insert succeeds iff the cast product validates and no stored product has its SKU, and then only its own entry is added |
| ProductModel.InsertKeepsInvariant | server/src/models/product.model.ts:64-68 | inserting keeps SKUs unique and every stored product valid |
| ProductModel.IncStock | server/src/api/v1/controllers/order.controller.ts:165-171 | `$inc` changes the stock of the named product by the delta and leaves every other product and field alone |
| ProductModel.IncStockIgnoresBound | server/src/models/product.model.ts:58-63 | an increment that drives stock below zero produces a product that fails the model's stock minimum, because `$inc` bypasses validation |
| CartModel.NewCart | server/src/models/cart.model.ts:35-70 | a new cart belongs to its owner, is empty, expires a week after creation, is valid, and has zero totals |
| CartModel.SumNonNegative | server/src/models/cart.model.ts:83 | the subtotal sum of valid lines is not negative |
| CartModel.SumAppend | server/src/models/cart.model.ts:83 | appending a line adds its subtotal to the sum |
| CartModel.SumUpdate | server/src/models/cart.model.ts:83 | replacing a line changes the sum by the difference of the two subtotals |
| CartModel.SumRemove | server/src/models/cart.model.ts:83 | removing a line subtracts its subtotal from the sum |
| CartModel.PreSave | server/src/models/cart.model.ts:82-86 | the pre-save hook makes the totals consistent (subtotal is the line sum; total adds tax and shipping) and changes nothing else |
| CartModel.Save | server/src/models/cart.model.ts:15-30 | saving succeeds iff the cart passes the schema bounds, and then stores the hooked cart, which is valid and consistent (hook at lines 82-86) |
| CartModel.ClearedCartTotal | server/src/api/v1/controllers/cart.controller.ts:219-223 | a cleared cart is stored with total equal to tax plus shipping, not zero |
| CartModel.NewCartSaves | server/src/api/v1/controllers/cart.controller.ts:26-34 | a freshly created cart saves unchanged |
| OrderModel.ParseOrderStatus | server/src/models/order.model.ts:105-109 | a recognised status string names the status it parses to |
| OrderModel.OrderStatusRoundTrip | server/src/models/order.model.ts:105-109 | every order status parses back from its name |
| OrderModel.ParsePaymentStatus | server/src/models/order.model.ts:100-104 | a recognised payment status string names the status it parses to |
| OrderModel.PaymentStatusRoundTrip | server/src/models/order.model.ts:100-104 | every payment status parses back from its name |
| OrderModel.ApplyDefaults | server/src/models/order.model.ts:75-109 | tax and shipping default to 0, payment method to "card", both statuses to pending; every supplied value and every other field is kept |
| OrderModel.DefaultsAreValid | server/src/models/order.model.ts:75-109 | filling the defaults neither makes an order valid nor invalid, and leaves both statuses pending |
| OrderModel.Save | server/src/models/order.model.ts:44-119 | saving succeeds iff the order validates and no other stored order has its order number, and then stores it under its id |
| OrderModel.SaveKeepsInvariant | server/src/models/order.model.ts:46-50 | a successful save keeps order numbers unique and every stored order valid |
| AddressModel.Cast | server/src/models/address.model.ts:11-65 | the text fields are trimmed; country defaults to "India", type to "home" and isDefault to false; the other fields are copied |
| AddressModel.Validate | server/src/models/address.model.ts:4-71 | validation succeeds iff the cast address meets the model's rules, and yields that cast address |
| AddressModel.DefaultsAreValid | server/src/models/address.model.ts:51-65 | the defaults are India, home and not-default, and marking an address default does not affect validity |
| AddressModel.ValidAddressShips | server/src/models/address.model.ts:75-87 | every valid saved address makes a valid shipping address |
| AddressModel.ShipAddressSkipsFormats | server/src/models/address.model.ts:75-87 | a shipping address with phone and zip "n/a" is valid though it fails the saved address's phone and zip formats |
| UserModel.Cast | server/src/models/user.model.ts:8-65 | name is trimmed; e-mail is lower-cased; role defaults to the configured user role; isVerified and isGuest default to false |
| UserModel.Insert | server/src/models/user.model.ts:14-37 | a user is added iff the cast user validates (including a unique e-mail), and is then appended |
| UserModel.EmailCaseInsensitive | server/src/models/user.model.ts:14-23 | registering an e-mail that differs only in ASCII letter case from a stored one fails |
| UserModel.DefaultsOfNewUser | server/src/models/user.model.ts:38-65 | a user given no role and no flags gets the user role and is neither verified nor a guest |
| UserModel.Selected | server/src/models/user.model.ts:24-28 | a user loaded by a query carries no password, and is otherwise the stored user |
| UserModel.ToJson | server/src/models/user.model.ts:92-98 | the JSON form holds every field of the document except password and version, unchanged |
| UserModel.ToJsonHidesPassword | server/src/models/user.model.ts:92-98 | a user's JSON never holds the password, and is the same whether or not the password was selected |
| Database.CartIndex | server/src/api/v1/controllers/cart.controller.ts:59 | `findOne` by owner: the first cart with the owner, or -1 exactly when no cart has it |
| Database.CartIndexFrom | server/src/api/v1/controllers/cart.controller.ts:59 | the first cart with the owner at or after a position, or -1 when there is none |
| Database.RemoveCart | server/src/api/v1/controllers/order.controller.ts:173 | deleting a cart keeps every other cart in order and shortens the list by one |
| Database.ShadowedCart | server/src/models/cart.model.ts:78 | a second cart of the same owner is never the one found |
| CartOps.FirstMatch | server/src/api/v1/controllers/cart.controller.ts:65-71 | the first line matching product and variant, or -1 exactly when no line matches |
| CartOps.FirstMatchFrom | server/src/api/v1/controllers/cart.controller.ts:65-71 | the first matching line at or after a position, or -1 |
| CartOps.Persist | server/src/api/v1/controllers/cart.controller.ts:98 | saving a cart succeeds iff it validates; on success the hooked cart replaces the stored one or is appended, and products and orders stay unchanged |
| CartOps.GetCart | server/src/api/v1/controllers/cart.controller.ts:18-37 | fetching the cart always succeeds |
| CartOps.GetCartFindsOrCreates | server/src/api/v1/controllers/cart.controller.ts:18-37 | the owner's stored cart is returned unchanged; with none, an empty week-long cart with zero totals is created and stored |
| CartOps.AddToCart | server/src/api/v1/controllers/cart.controller.ts:46-104 | a failed add leaves the database unchanged |
| CartOps.UpdateCartItem | server/src/api/v1/controllers/cart.controller.ts:115-153 | a failed update leaves the database unchanged |
| CartOps.RemoveCartItem | server/src/api/v1/controllers/cart.controller.ts:164-200 | a failed removal leaves the database unchanged |
| CartOps.ClearCart | server/src/api/v1/controllers/cart.controller.ts:208-226 | a failed clear leaves the database unchanged |
| CartOps.PersistKeepsInvariant | server/src/api/v1/controllers/cart.controller.ts:98 | saving a cart keeps the database invariant |
| CartOps.AddToCartOutcome | server/src/api/v1/controllers/cart.controller.ts:52-98 | a valid add fails iff the product is unknown or the resolved price is negative (with stored prices not negative, iff the request's variant price is negative); an unknown product replies "Product not found", a negative price fails the cart's validation, and neither changes anything; an inactive product is added like any other |
| CartOps.AddLineRejectsNegativePrice | server/src/models/cart.model.ts:21-30 | a line of at least one unit at a negative price, grown or appended, fails the cart item's `min: 0` on price or subtotal |
| CartOps.AddLineKeepsCartOk | server/src/api/v1/controllers/cart.controller.ts:73-98 | adding a positive quantity at a non-negative price to a valid cart gives a cart that still saves |
| CartOps.AddLineEffect | server/src/api/v1/controllers/cart.controller.ts:73-89 | a matching line grows by the quantity, keeps its own price and gets subtotal (quantity × new price), with all other lines unchanged; otherwise a new line is appended |
| CartOps.AddWithoutVariantMergesAnyLine | server/src/api/v1/controllers/cart.controller.ts:65-71 | with no variant requested, the first line of the product grows whatever variant it carries |
| CartOps.AddWithOtherVariantAppends | server/src/api/v1/controllers/cart.controller.ts:65-89 | a variant name no line of the product has appends a new line |
| CartOps.AddToCartSubtotal | server/src/api/v1/controllers/cart.controller.ts:91-96 | after an add, the cart subtotal changes by exactly the changed line's subtotal difference |
| CartOps.UpdateCartItemEffect | server/src/api/v1/controllers/cart.controller.ts:122-145 | updating sets the first line of the product to the new quantity and its subtotal to quantity × line price, and the totals follow |
| CartOps.RemoveCartItemEffect | server/src/api/v1/controllers/cart.controller.ts:170-192 | removing deletes exactly the first line of the product and lowers the subtotal by its subtotal |
| CartOps.ClearCartKeepsTaxAndShipping | server/src/api/v1/controllers/cart.controller.ts:219-223 | clearing empties the lines, keeps tax and shipping, and stores total = tax + shipping |
| CartOps.ClearCartNeedsCart | server/src/api/v1/controllers/cart.controller.ts:213-216 | clearing without a cart replies "Cart not found" and changes nothing |
| CartOps.PersistKeepsOwnersUnique | server/src/api/v1/controllers/cart.controller.ts:59-62 | saving the owner's own cart, or a first cart for a new owner, keeps one cart per owner |
| CartOps.GetCartKeepsInvariant | server/src/api/v1/controllers/cart.controller.ts:18-35 | fetching keeps the database invariant and one cart per owner |
| CartOps.AddToCartKeepsInvariant | server/src/api/v1/controllers/cart.controller.ts:58-98 | adding keeps the database invariant and one cart per owner |
| CartOps.UpdateCartItemKeepsInvariant | server/src/api/v1/controllers/cart.controller.ts:122-147 | updating keeps the database invariant and one cart per owner |
| CartOps.RemoveCartItemKeepsInvariant | server/src/api/v1/controllers/cart.controller.ts:170-194 | removing keeps the database invariant and one cart per owner |
| CartOps.ClearCartKeepsInvariant | server/src/api/v1/controllers/cart.controller.ts:213-223 | clearing keeps the database invariant and one cart per owner |
| OrderOps.ApplyDeltas | server/src/api/v1/controllers/order.controller.ts:165-171 | applying stock increments keeps the set of products and changes only their stock |
| OrderOps.ApplyDeltasNet | server/src/api/v1/controllers/order.controller.ts:165-171 | a product's final stock is its initial stock plus the net of all increments naming it |
| OrderOps.NetChangeOpposite | server/src/api/v1/controllers/order.controller.ts:306-312 | increments that negate another list line by line have the opposite net effect |
| OrderOps.CheckoutDeltas | server/src/api/v1/controllers/order.controller.ts:165-171 | checkout decrements each line's product by the line's quantity, in line order |
| OrderOps.RestockDeltas | server/src/api/v1/controllers/order.controller.ts:306-312 | cancellation increments each order item's product by its quantity |
| OrderOps.CheckoutNetChange | server/src/api/v1/controllers/order.controller.ts:165-171 | checkout lowers a product's stock by the total quantity ordered of it |
| OrderOps.Flatten | server/src/api/v1/controllers/order.controller.ts:24-36 | the flat body holds exactly the flat keys whose nested source field is present, each copied from its source (address from street) |
| OrderOps.BothCheckoutSchemas | server/src/api/v1/controllers/order.controller.ts:24-41 | a request meeting the route schema (server/src/schema/order.schema.ts:49-58) meets the flat schema too iff its zip code is all digits and its expiry is in strict MM/YY form and not past |
| OrderOps.FlatCustomerFields | server/src/api/v1/controllers/order.controller.ts:24-31 | a valid customer's name, e-mail, phone, street, city and state arrive in the flat body unchanged |
| OrderOps.FlatPaymentFields | server/src/api/v1/controllers/order.controller.ts:32-35 | a valid payment's card fields and the transaction type arrive in the flat body unchanged |
| OrderOps.SnapshotItems | server/src/api/v1/controllers/order.controller.ts:95-110 | the snapshot succeeds iff every line's product exists, and then gives one order item per line, in order, built from that product |
| OrderOps.CreateOrder | server/src/api/v1/controllers/order.controller.ts:18-186 | a failure changes nothing; a success means both schemas passed and the result is checkout of the owner's cart with the flattened body |
| OrderOps.PlaceOrder | server/src/api/v1/controllers/order.controller.ts:74-177 | a failure changes nothing; a success stores the order, removes the owner's cart and applies the checkout decrements |
| OrderOps.SaveCheckout | server/src/api/v1/controllers/order.controller.ts:165-177 | committing succeeds iff the order saves, and then decrements stock, stores the order, deletes the cart and advances the id counter |
| OrderOps.GetOrderById | server/src/api/v1/controllers/order.controller.ts:213-228 | an order is returned iff it exists and belongs to the requester |
| OrderOps.UpdateOrderStatus | server/src/api/v1/controllers/order.controller.ts:237-262 | a failed status update leaves the database unchanged |
| OrderOps.CancelOrder | server/src/api/v1/controllers/order.controller.ts:271-316 | a failed cancellation leaves the database unchanged |
| OrderOps.CreateOrderRejects | server/src/api/v1/controllers/order.controller.ts:40-83 | a body failing the route schema, a body failing the flat schema, and a missing or empty cart each get their own error and change nothing |
| OrderOps.BuildOrderContents | server/src/api/v1/controllers/order.controller.ts:95-161 | the order copies the cart line by line and its totals, keeps only the card's last four digits, ships and bills to the same Indian address, and takes its statuses from the payment |
| OrderOps.CreateOrderContents | server/src/api/v1/controllers/order.controller.ts:95-161 | a created order is exactly the one built from the owner's cart, the flattened body and the simulated payment |
| OrderOps.SaveCheckoutStore | server/src/api/v1/controllers/order.controller.ts:165-177 | a committed checkout lowers each product's stock by the quantity ordered, removes exactly the cart, and adds exactly the order |
| OrderOps.PlaceOrderStore | server/src/api/v1/controllers/order.controller.ts:165-177 | a placed order lowers each product's stock by the cart's ordered quantity and removes exactly the owner's cart |
| OrderOps.CreateOrderNoStockFloor | server/src/api/v1/controllers/order.controller.ts:165-171 | ordering more than is in stock succeeds and leaves negative stock |
| OrderOps.PlacedKeepsInvariant | server/src/api/v1/controllers/order.controller.ts:165-177 | stock changes, a cart removal and an order save together keep the database invariant |
| OrderOps.CreateOrderKeepsInvariant | server/src/api/v1/controllers/order.controller.ts:165-177 | creating an order keeps the database invariant |
| OrderOps.UpdateOrderStatusEffect | server/src/api/v1/controllers/order.controller.ts:255-260 | a valid update of an owned order sets exactly the supplied statuses and leaves every other field, cart and product alone |
| OrderOps.UpdateOrderStatusRejectsUnknownStatus | server/src/models/order.model.ts:105-109 | an order status string outside the enum fails validation and changes nothing (update at order.controller.ts:255-260) |
| OrderOps.UpdateKeepsInvariant | server/src/api/v1/controllers/order.controller.ts:255-260 | updating a status keeps the database invariant |
| OrderOps.CancelKeepsInvariant | server/src/api/v1/controllers/order.controller.ts:300-314 | cancelling keeps the database invariant |
| OrderOps.CancelOrderEffect | server/src/api/v1/controllers/order.controller.ts:287-314 | cancelling succeeds iff the order is pending, processing or already cancelled; it then marks the order cancelled and refunded with the cancellation note, and restocks every item |
| OrderOps.CancelTwiceRestocksTwice | server/src/api/v1/controllers/order.controller.ts:287-312 | a cancelled order can be cancelled again, and its items are restocked twice |
| OrderOps.RestockUndoesCheckout | server/src/api/v1/controllers/order.controller.ts:306-312 | restocking an order's items exactly undoes the checkout decrements of the lines it came from |
| OrderOps.CheckoutThenCancelRestoresStock | server/src/api/v1/controllers/order.controller.ts:165-171 | creating an order and then cancelling it restores every product's stock (restock at lines 306-312) |
| Controllers.SumLines | server/src/api/v1/controllers/cart.controller.ts:92-95 | the reduction loop computes the sum of the line subtotals |
| Controllers.Recompute | server/src/api/v1/controllers/cart.controller.ts:91-96 | recomputing gives the pre-save hook's result, with consistent totals |
| Controllers.FindLine | server/src/api/v1/controllers/cart.controller.ts:65-71 | the `findIndex` loop returns the first matching line or -1 |
| Controllers.FirstMatchIsFirst | server/src/api/v1/controllers/cart.controller.ts:65-71 | a matching index with no match before it is the first match |
| Controllers.CartIndexIsFirst | server/src/api/v1/controllers/cart.controller.ts:59 | a cart of the owner with none before it is the one `findOne` finds |
| Controllers.ApplyStock | server/src/api/v1/controllers/order.controller.ts:165-171 | the per-line `$inc` loop applies the increments in order |
| Controllers.PlaceOrderWithoutCart | server/src/api/v1/controllers/order.controller.ts:81-83 | with no cart, or an empty one, checkout replies "Cart is empty" and changes nothing |
| Controllers.PlaceOrderSnapshotFails | server/src/api/v1/controllers/order.controller.ts:95-98 | a line whose product is gone fails checkout with no change |
| Controllers.PlaceOrderSaves | server/src/api/v1/controllers/order.controller.ts:87-177 | once the snapshot succeeds, checkout commits the order built from the cart and the simulated payment |
| Controllers.Store.FindCart | server/src/api/v1/controllers/cart.controller.ts:59 | the owner lookup loop returns the first cart of the owner, or -1 |
| Controllers.Store.CartIndexFrom0 | server/src/api/v1/controllers/cart.controller.ts:59 | the index the lookup loop stops at is the first cart of the owner |
| Controllers.Store.SaveCart | server/src/api/v1/controllers/cart.controller.ts:98 | the store is updated exactly as the cart save specifies |
| Controllers.Store.GetCart | server/src/api/v1/controllers/cart.controller.ts:12-44 | the store and the reply are those of fetching the cart, and the invariant is kept |
| Controllers.Store.AddToCart | server/src/api/v1/controllers/cart.controller.ts:46-113 | the store and the reply are those of adding to the cart, and the invariant is kept |
| Controllers.Store.UpdateCartItem | server/src/api/v1/controllers/cart.controller.ts:115-162 | the store and the reply are those of updating a line, and the invariant is kept |
| Controllers.Store.RemoveCartItem | server/src/api/v1/controllers/cart.controller.ts:164-206 | the store and the reply are those of removing a line, and the invariant is kept |
| Controllers.Store.ClearCart | server/src/api/v1/controllers/cart.controller.ts:208-232 | the store and the reply are those of clearing the cart, and the invariant is kept |
| Controllers.Store.CreateOrder | server/src/api/v1/controllers/order.controller.ts:18-195 | the store and the reply are those of creating an order, and the invariant is kept |
| Controllers.Store.PlaceOrder | server/src/api/v1/controllers/order.controller.ts:74-177 | the store and the reply are those of checkout from the flat body, with one cart per owner kept |
| Controllers.Store.CheckoutCart | server/src/api/v1/controllers/order.controller.ts:95-177 | checkout of a known non-empty cart updates the store as checkout specifies |
| Controllers.Store.SaveOrder | server/src/api/v1/controllers/order.controller.ts:114-177 | building and committing the order updates the store as checkout specifies |
| Controllers.Store.SaveCheckout | server/src/api/v1/controllers/order.controller.ts:165-177 | the transaction's writes happen together, or none of them does |
| Controllers.Store.Commit | server/src/api/v1/controllers/order.controller.ts:165-177 | the commit writes the new stock, removes the cart, stores the orders and advances the counter |
| Controllers.Store.CreateOrderCommitsOwners | server/src/api/v1/controllers/order.controller.ts:173 | removing a cart keeps one cart per owner |
| Controllers.Store.GetOrderById | server/src/api/v1/controllers/order.controller.ts:213-235 | the lookup returns the order iff it exists and belongs to the requester, and changes nothing |
| Controllers.Store.UpdateOrderStatus | server/src/api/v1/controllers/order.controller.ts:237-269 | the store and the reply are those of the status update, and the invariant is kept |
| Controllers.Store.CancelOrder | server/src/api/v1/controllers/order.controller.ts:271-323 | the store and the reply are those of the cancellation, and the invariant is kept |
| FileUpload.Merge | server/src/lib/file-upload.ts:53 | every option supplied by the caller wins, and every other option comes from the defaults (lines 13-19) |
| FileUpload.MergeLaws | server/src/lib/file-upload.ts:53 | merging no options gives the defaults; merging the same options twice is merging once |
| FileUpload.SizeLimit | server/src/lib/file-upload.ts:30 | the limit is the configured size unless it is absent or zero, in which case it is 10 MiB |
| FileUpload.AllowedTypes | server/src/lib/file-upload.ts:38-39 | the allowed types are the configured list, or the default image types |
| FileUpload.ValidateFile | server/src/lib/file-upload.ts:26-47 | a file passes iff it is within the size limit and of an allowed type; an oversize file gets the size error first |
| FileUpload.SizeBoundary | server/src/lib/file-upload.ts:30-36 | exactly 10 MiB passes, one byte more fails, and a zero limit falls back to 10 MiB |
| FileUpload.StripTrailingSlashes | server/src/lib/file-upload.ts:22 | the result is a prefix of the path with no trailing slash |
| FileUpload.Basename | server/src/lib/file-upload.ts:22 | a base name holds no slash |
| FileUpload.Extname | server/src/lib/file-upload.ts:22 | an extension is empty or a dot followed by no further dot or slash |
| FileUpload.UniqueFilename | server/src/lib/file-upload.ts:21-24 | the stored name starts with the uuid and ends with the original's extension |
| FileUpload.UniqueFilenameKeepsExtension | server/src/lib/file-upload.ts:21-24 | with a uuid free of dots and slashes, the stored name's extension is the original's |
| FileUpload.SlashFreeBasename | server/src/lib/file-upload.ts:22 | a name without slashes is its own base name |
| FileUpload.LastIndexOfIs | server/src/lib/file-upload.ts:22 | the last occurrence of a character is found where it stands |
| FileUpload.RelPath | server/src/lib/file-upload.ts:136-138 | the relative path ends with the file name |
| FileUpload.LocalPublicUrl | server/src/lib/file-upload.ts:136-140 | the URL starts with "/uploads/", holds no backslash, and without a path structure is "/uploads/" and the name |
| FileUpload.ReplaceKeepsSuffix | server/src/lib/file-upload.ts:140 | replacing a character the suffix lacks keeps the suffix |
| FileUpload.EndsWithAfterPrefix | server/src/lib/file-upload.ts:140 | prefixing keeps a suffix |
| FileUpload.LocalUrlEndsWithName | server/src/lib/file-upload.ts:140 | a stored file's local URL ends with its file name |
| FileUpload.Uploaded | server/src/lib/file-upload.ts:78-148 | the file record keeps field name, original name, type and size, gets the unique name, and locally the /uploads URL |
| FileUpload.Strs | server/src/lib/file-upload.ts:170-187 | each field string becomes a string value, in order |
| FileUpload.AddField | server/src/lib/file-upload.ts:170-187 | a field fails only when an `x[]` name meets an existing non-list value; otherwise it is stored, appended or promoted to a list |
| FileUpload.ArrayEvents | server/src/lib/file-upload.ts:170 | a run of `x[]` fields, in order |
| FileUpload.PlainEvents | server/src/lib/file-upload.ts:170 | a run of fields of one plain name, in order |
| FileUpload.BaseOfArrayName | server/src/lib/file-upload.ts:171-172 | `x[]` is a list name whose base is `x` |
| FileUpload.ArrayFieldAppends | server/src/lib/file-upload.ts:171-176 | `x[]` fields append their values, in order, to an existing list |
| FileUpload.ArrayFirstEvent | server/src/lib/file-upload.ts:171-176 | the first `x[]` field appends its value and the rest follow |
| FileUpload.ArrayListGrows | server/src/lib/file-upload.ts:171-176 | after one `x[]` field the list has grown by that value |
| FileUpload.ArrayFieldCollects | server/src/lib/file-upload.ts:171-176 | `x[]` fields with no earlier `x` collect all their values into a new list |
| FileUpload.ArrayStartsList | server/src/lib/file-upload.ts:171-176 | a missing `x` behaves as an empty list |
| FileUpload.PlainFieldAppends | server/src/lib/file-upload.ts:177-186 | repeats of an existing plain field turn it into a list and append in order |
| FileUpload.PlainFirstEvent | server/src/lib/file-upload.ts:177-186 | the first repeat of a plain field appends and the rest follow |
| FileUpload.PlainLastValue | server/src/lib/file-upload.ts:177-186 | a final repeat leaves the appended list |
| FileUpload.PlainListGrows | server/src/lib/file-upload.ts:177-186 | a repeat grows the field's list by its value |
| FileUpload.PlainStep | server/src/lib/file-upload.ts:177-186 | one repeat of a plain field makes it a list ending with the new value |
| FileUpload.RepeatedFieldPromotes | server/src/lib/file-upload.ts:177-186 | a single plain field stays a string; two or more become the list of their values |
| FileUpload.CollectFirst | server/src/lib/file-upload.ts:170-187 | handling fields is handling the first and then the rest |
| FileUpload.StrsFirst | server/src/lib/file-upload.ts:170-187 | converting values splits at the first |
| FileUpload.ScalarThenArrayName | server/src/lib/file-upload.ts:171-186 | a non-empty `x` followed by `x[]` fails; an empty `x` is replaced by the list |
| FileUpload.Upload.constructor | server/src/lib/file-upload.ts:53 | an upload starts with the merged options, no files, no fields and no failure (lines 63-64) |
| FileUpload.Upload.OnField | server/src/lib/file-upload.ts:170-187 | a field is recorded as AddField says, or becomes the failure; after a failure nothing changes; the files are untouched |
| FileUpload.Upload.OnFile | server/src/lib/file-upload.ts:76-163 | a valid file is appended; the first invalid one becomes the failure; nothing is recorded after a failure; the fields are untouched |
| FileUpload.Upload.Finish | server/src/lib/file-upload.ts:189-208 | the upload resolves with its files and fields iff nothing failed |
| UploadHook.ParseArrayFieldEmpty | server/src/hooks/file-upload-hook.ts:224-238 | an existing-files field parses to no entries iff it is an empty array, a string whose JSON is an empty array, or a falsy value that is neither string nor array |
| UploadHook.ConvertEntry | server/src/hooks/file-upload-hook.ts:243-268 | a non-string value, or a plain string under a plain key, is copied unchanged; a bracketed string is stored as its parse when that succeeds and as the string otherwise; a plain string under an `x[]` key is pushed onto `x` |
| UploadHook.PushEntry | server/src/hooks/file-upload-hook.ts:243-268 | an `x[]` entry is appended to the list at `x`, a new list when there is none |
| UploadHook.ConvertFieldsToJson | server/src/hooks/file-upload-hook.ts:240-272 | the conversion loop gives the fold of the entry conversion over the field keys |
| UploadHook.EntryFrame | server/src/hooks/file-upload-hook.ts:243-268 | an entry that does not write key x leaves x's presence and value as they were |
| UploadHook.ConvertAllStep | server/src/hooks/file-upload-hook.ts:240-272 | converting one more field applies that field's entry to the result so far |
| UploadHook.ConvertFrameTo | server/src/hooks/file-upload-hook.ts:243-269 | a run of entries none of which writes x leaves x's presence and value as they were before the run |
| UploadHook.ConvertFrame | server/src/hooks/file-upload-hook.ts:240-272 | after the last entry that writes x, x keeps its presence and value to the end |
| UploadHook.ConvertNoWriter | server/src/hooks/file-upload-hook.ts:240-272 | a key that no entry writes is absent from the result |
| UploadHook.ConvertLastWrite | server/src/hooks/file-upload-hook.ts:243-251 | the last entry to write its own key, when it is not a push, leaves that key holding its (possibly parsed) value |
| UploadHook.WritersOfBase | server/src/hooks/file-upload-hook.ts:253-260 | only the keys `b` and `b[]` can write `b` |
| UploadHook.PushStep | server/src/hooks/file-upload-hook.ts:253-260 | a plain string under `b[]` is pushed onto `b` |
| UploadHook.PushOnto | server/src/hooks/file-upload-hook.ts:253-260 | pushing onto a present key starts a list over a falsy value, extends a list, and otherwise stores the string under the `x[]` key |
| UploadHook.BaseBeforePush | server/src/hooks/file-upload-hook.ts:243-251 | just before the `b[]` entry, `b` holds its converted value and `b[]` is absent |
| UploadHook.PushWithoutBase | server/src/hooks/file-upload-hook.ts:253-260 | with no field `b`, a plain string under `b[]` ends as the one-element list `[s]` at `b`, and `b[]` is absent |
| UploadHook.PushThenBase | server/src/hooks/file-upload-hook.ts:240-272 | a later plain field `b` overwrites what `b[]` accumulated: `b` holds its own converted value |
| UploadHook.BaseThenPush | server/src/hooks/file-upload-hook.ts:253-260 | after field `b`, a `b[]` string starts a new list when `b` is falsy, is appended when `b` is a list, and otherwise leaves `b` and is stored under `b[]` itself |
| UploadHook.Restrict | server/src/hooks/file-upload-hook.ts:240-272 | the result holds exactly the listed keys with their values |
| UploadHook.ConvertPlainPrefix | server/src/hooks/file-upload-hook.ts:240-272 | converting plain fields copies the ones seen so far |
| UploadHook.ConvertKeepsPlainFields | server/src/hooks/file-upload-hook.ts:240-272 | fields with no bracket names and no JSON-looking values pass through the conversion unchanged |
| UploadHook.FilesOf | server/src/hooks/file-upload-hook.ts:75-81 | a field's group holds only uploaded files of that field |
| UploadHook.GroupByField | server/src/hooks/file-upload-hook.ts:72-81 | there is a group for exactly the field names some file has; each holds that field's files, in upload order, and is not empty |
| UploadHook.FilesOfSnoc | server/src/hooks/file-upload-hook.ts:75-81 | a new file extends only its own field's group |
| UploadHook.FilesOfAbsent | server/src/hooks/file-upload-hook.ts:75-81 | a field no file has gets no files |
| UploadHook.CarriesSnoc | server/src/hooks/file-upload-hook.ts:75-81 | a field has files after a new file iff it had some before or the new file is of it |
| UploadHook.GroupExtend | server/src/hooks/file-upload-hook.ts:75-81 | adding a file to the grouping keeps it a correct grouping |
| UploadHook.GroupExtendKeys | server/src/hooks/file-upload-hook.ts:75-81 | the group keys after a file are the old keys and the file's field |
| UploadHook.GroupExtendValues | server/src/hooks/file-upload-hook.ts:75-81 | every group after a file holds its field's files |
| UploadHook.GroupExtendValueAt | server/src/hooks/file-upload-hook.ts:75-81 | one group after a file holds its field's files |
| UploadHook.FileValues | server/src/hooks/file-upload-hook.ts:88-96 | each file of a group becomes a file value, in order |
| UploadHook.Placed | server/src/hooks/file-upload-hook.ts:88-96 | a group goes into the body as a list iff it is background images or has several files, and otherwise as its single file |
| UploadHook.PlaceFiles | server/src/hooks/file-upload-hook.ts:88-96 | every grouped field is placed, and every other body key is kept |
| UploadHook.FileUrl | server/src/hooks/file-upload-hook.ts:163 | a file's URL is never empty (also line 206) |
| UploadHook.MappedPaths | server/src/hooks/file-upload-hook.ts:158-167 | one path per file, its URL unless a transform is given |
| UploadHook.ApplyMapping | server/src/hooks/file-upload-hook.ts:157-185 | a mapping whose source has no files changes nothing; otherwise it sets only its target, to the list of paths for an array mapping |
| UploadHook.ApplyMappingsStep | server/src/hooks/file-upload-hook.ts:152 | the mappings apply one after another, in order |
| UploadHook.MappingShape | server/src/hooks/file-upload-hook.ts:174-180 | a non-array mapping sets its target to the single path when the field has one file, and to the list of paths otherwise |
| UploadHook.MappingsKeepOtherKeys | server/src/hooks/file-upload-hook.ts:152-186 | a key no mapping targets keeps its value |
| UploadHook.Urls | server/src/hooks/file-upload-hook.ts:204-207 | the new files become their URLs, in order |
| UploadHook.ApplyCombinesStep | server/src/hooks/file-upload-hook.ts:195 | the combine options apply one after another, in order |
| UploadHook.CombinedOrder | server/src/hooks/file-upload-hook.ts:197-214 | the combined list is the existing entries followed by the new URLs, in order |
| UploadHook.AppendParts | server/src/hooks/file-upload-hook.ts:214 | a concatenation starts with its first part and continues with the second |
| UploadHook.FieldsOverwriteBody | server/src/hooks/file-upload-hook.ts:57-70 | without options or files, the upload's fields overwrite the request body key by key and the rest is kept |
| UploadHook.FilesOverrideFields | server/src/hooks/file-upload-hook.ts:88-96 | a field that received files holds them in the body, whatever text field of that name was sent |
| UploadHook.RequestContext.constructor | server/src/hooks/file-upload-hook.ts:28-32 | the context starts with the request body and no files |
| UploadHook.RequestContext.ProcessFieldMappings | server/src/hooks/file-upload-hook.ts:147-187 | the body becomes the mappings applied in order, and the files stay unchanged |
| UploadHook.RequestContext.ProcessCombinedFiles | server/src/hooks/file-upload-hook.ts:189-222 | the body becomes the combines applied in order, and the files stay unchanged |
| UploadHook.RequestContext.ProcessFileUpload | server/src/hooks/file-upload-hook.ts:28-145 | a non-multipart request is left alone (line 32); a failed upload is passed on; a successful one sets the files and assembles the body |
| UploadHook.RequestContext.MapAndCombine | server/src/hooks/file-upload-hook.ts:104-134 | the body becomes the mappings and then the combines applied to it |
| OrderSlice.IndexById | client/src/features/order/order.slice.ts:197-209 | the first position holding the id, or -1 exactly when none does |
| OrderSlice.IndexByIdUnique | client/src/features/order/order.slice.ts:197-199 | any position meeting the `findIndex` description is the index found |
| OrderSlice.FindIndex | client/src/features/order/order.slice.ts:197-199 | the search loop returns the `findIndex` result |
| OrderSlice.ReplaceFirstByIdEffect | client/src/features/order/order.slice.ts:192-251 | replacement keeps the length, changes nothing without a match, and otherwise puts the order exactly at the first match |
| OrderSlice.ReplaceFirstByIdIdempotent | client/src/features/order/order.slice.ts:192-251 | replacing twice is replacing once |
| OrderSlice.LifecycleFlags | client/src/features/order/order.slice.ts:131-255 | pending sets loading and clears the error; rejected clears loading and records the message; neither touches the orders |
| OrderSlice.PendingThenFulfilledClearsError | client/src/features/order/order.slice.ts:131-251 | a request that succeeds ends not loading and with no error |
| OrderSlice.ResetRestoresInitial | client/src/features/order/order.slice.ts:120-126 | resetting restores the initial state (lines 18-24) from any state |
| OrderSlice.ClearersChangeOneField | client/src/features/order/order.slice.ts:114-119 | each clearing reducer resets only its own field |
| OrderSlice.UpdatedOrderEffect | client/src/features/order/order.slice.ts:192-251 | update and cancel act alike: list lengths are kept, the current order is replaced iff its id matches, the error is kept, and applying the result again is idempotent |
| OrderSlice.OrderStore.constructor | client/src/features/order/order.slice.ts:18-24 | the store starts in the initial state |
| OrderSlice.OrderStore.Updated | client/src/features/order/order.slice.ts:192-216 | the in-place update of both lists and the current order follows the reducer's replacement |
| OrderSlice.OrderStore.Dispatch | client/src/features/order/order.slice.ts:113-256 | every action changes the store as the reducer says |
| CartSlice.LifecycleFlags | client/src/features/cart/cart.slice.ts:117-184 | pending sets loading and clears the error; rejected records the message; neither touches the cart |
| CartSlice.RequestOutcome | client/src/features/cart/cart.slice.ts:117-184 | a successful request leaves the server's cart (none after clearing) with no error; a failed one keeps the cart and records the message |
| CartSlice.ClearErrorOnly | client/src/features/cart/cart.slice.ts:110-112 | clearing the error resets only the error, and twice is once |
| CartSlice.AddToCartBody | client/src/features/cart/cart.slice.ts:43 | the add request forwards the variant |
| CartSlice.UpdateCartItemBody | client/src/features/cart/cart.slice.ts:53-68 | the update request carries the product id and the quantity |
| CartSlice.UpdateDropsVariant | client/src/features/cart/cart.slice.ts:53-68 | the update body is the same whatever the variant, while the add body differs iff the variant does |
| CartSlice.CartStore.constructor | client/src/features/cart/cart.slice.ts:12-16 | the store starts in the initial state |
| CartSlice.CartStore.Dispatch | client/src/features/cart/cart.slice.ts:109-184 | every action changes the store as the reducer says |
| ProductSlice.Take | client/src/features/product/product.slice.ts:94 | `slice(0, n)` is the prefix of length min(n, size) |
| ProductSlice.FetchAllFeatures | client/src/features/product/product.slice.ts:89-96 | loading the catalogue features its first three products only when nothing was featured, and otherwise keeps the featured list |
| ProductSlice.ChosenFeaturedSurvivesFetch | client/src/features/product/product.slice.ts:78-80 | an explicit non-empty featured choice survives a later catalogue load, and an empty one is replaced (load at lines 89-96) |
| ProductSlice.SecondFetchKeepsFeatured | client/src/features/product/product.slice.ts:89-96 | a second catalogue load keeps the products featured by the first |
| ProductSlice.LifecycleFlags | client/src/features/product/product.slice.ts:85-126 | pending clears the error; rejection records it; neither touches the data |
| ProductSlice.ClearersChangeOneField | client/src/features/product/product.slice.ts:69-77 | each clearing reducer resets only its own field to its initial value |
| ProductSlice.ProductStore.constructor | client/src/features/product/product.slice.ts:14-21 | the store starts in the initial state |
| ProductSlice.ProductStore.Dispatch | client/src/features/product/product.slice.ts:68-127 | every action changes the store as the reducer says |

## Behaviour modelled as the code has it

The model follows the code in the following places, even where the comments
or the evident intent suggest otherwise:

- An existing-files field that is the empty string parses to `[""]`. The string branch runs first, and JSON.parse of "" throws, so the raw string is kept.
- A field `x[]` arriving after a non-empty field `x` makes the upload fail, because `push` is called on a string.
- The cart save checks the schema bounds before the pre-save hook runs, which is Mongoose's order.
- `clearCart` stores total = tax + shipping, not zero.
- `addToCart` accepts a negative variant price from the request, and the cart save then rejects the line.
- `cancelOrder` also accepts an already cancelled order, and restocks again.
- `createOrder` does not enforce a stock floor: `$inc` bypasses the model's minimum.
- The order route applies `createOrderSchema` (the nested body) before the controller flattens the body and applies the flat checkout schema. A request must pass both. The route wiring in server/src/api/v1/routes/order.route.ts and cart.route.ts is folded into the operations.

## Left out

- CartOps.RequestVariant: reads `variant.price` from the request body as sent. The add-to-cart schema (server/src/schema/cart.schema.ts:14-23) does not declare `price`, and `createApiHandler`, which would decide whether undeclared keys reach the controller, is not part of this model; the model assumes it does. A price that is not a number (such as the string "5") is treated as absent, whereas the controller would use it and Mongoose would cast it.
- String lengths: every length bound (the zod `min`, `max` and `length` checks and the Mongoose `minlength` and `maxlength`) counts Unicode code points, because a Dafny string is a sequence of code points. JavaScript's `.length` counts UTF-16 code units, so a string with characters outside the Basic Multilingual Plane can pass a bound in the model and fail it in the source, or the reverse.
- UserModel.Cast: lower-cases ASCII letters only. JavaScript's `toLowerCase` also folds non-ASCII letters.
- FileUpload.Upload.OnFile: takes the file's byte count as given. busboy's `limits.fileSize` (server/src/lib/file-upload.ts:56-61) truncates the stream at the limit, and that is not modelled.
- FileUpload.ValidateFile: the error messages are shortened. The "of N MB" suffix and the list of allowed types are not part of the message.
- FileUpload.Merge: an option is either present or absent. An explicit `undefined` in the spread, which overrides a default, is not modelled.
- FileUpload.RelPath: joins with "/" and does not normalise the path as `path.join` and `path.resolve` do.
- FileUpload.Upload.OnField: the `push is not a function` TypeError is modelled as the upload failing. What the emitter then does to the process is not modelled.
- Cloudinary upload and deletion and the file-system writes: the remote URL is a parameter, and the write is assumed to succeed.
- Image variants, `processImages` and `preservePath`: not modelled.
- Inherited object keys such as `toString` and `__proto__` in field names: not modelled, because a map has no prototype.
- A string entry in the files given to `transformPath`: not modelled, because the uploaded files are always records.
- getOrders: a query with no state change and no property beyond its filter.
- The client thunks' network calls, the choice among error messages, and the client services: only the request bodies and the reducer actions are modelled.
- Sending e-mail after an order: a side effect with no bearing on the stored state.
- `populate` of a cart line whose product was deleted: modelled as the snapshot failing with an unexpected error.
- Money, quantities and stock are integers in the smallest currency unit. Floating-point amounts are not modelled.
- Transactions are modelled as all-or-nothing updates. Concurrency between requests is not modelled.
- The TTL index that deletes expired carts and the one-second payment delay: time-driven behaviour, not modelled.
- uuid and clock readings are parameters.
- The server's enum files are not part of this model. The status names are those the code uses.
- Roles are a parameter.
- Product categories, tags, weight, dimensions and timestamps: not modelled.
- User avatar, auth provider, sessions and the remaining profile fields: not modelled.
- The zod e-mail format check and JSON.parse: parameters, not definitions.
