# Cart, catalog and order logic of an e-commerce backend, in Dafny

This project models the decision logic of a small Express/Mongoose shop
backend as pure functions over immutable data:

- **Cart** (`controllers/cartController.js`, `models/Cart.js`): a user's cart
  is an ordered sequence of line items `{itemId, product, name, image, price,
  quantity}`. Each handler (`getUserCart`, `addToCart`, `updateCartItem`,
  `removeCartItem`, `clearCart`) takes the catalog (`map<ProductId, Product>`)
  and the cart found for the user (`Option<Cart>`) and returns a `Step`: the
  cart left in the store and the reply (the cart with its totals, or an
  error). `cart.save()` is modelled as the line-item schema check (`name` and
  `image` required, `quantity` at least 1) that either stores the cart or
  fails with a validation error. `getCartTotal` becomes `GetCartTotal`.
- **Catalog** (`controllers/productController.js`): create, look up, the
  truthy field merge of `updateProduct`, and delete, over the catalog map.
- **Orders** (`controllers/orderController.js`): `createOrder` with its
  empty-items check, the paid and delivered transitions, lookup by id, and
  the per-user listing, over the sequence of stored orders.

Modules: `Base` (ids, `Option`, `Result`, the error kinds), `Seqs`
(`findIndex` and `filter`), `Money` (rounding), `CartModel`,
`ProductController`, `CartController`, `CartProperties` (laws relating
several cart calls) and `OrderController`.

**Money.** Prices are integer cents. The unrounded tax (10% of the subtotal)
and the unrounded total are exact in mills (tenths of a cent): for a subtotal
of S cents they are S and 11·S mills. `toFixed(2)` becomes `RoundToCents`,
which rounds to the nearest cent with halves away from zero — the rule
`toFixed` applies to an exactly representable decimal. Each of the three
outputs is rounded on its own from the unrounded values, as in the source.
Under this exact-decimal rounding, `TotalIsSubtotalPlusTax` proves that the
rounded total always equals rounded subtotal plus rounded tax. The source
rounds binary doubles instead, and these open that gap even with
whole-cent prices: for one line of 0.45 × 1, the double for the tax lies
just above 0.045 and reports 0.05, while the double for the total lies just
below 0.495 and reports 0.49, not 0.50. The model's declared rounding
removes that gap; it does not reproduce it.

**Errors.** `NotFound` (404), `InvalidRequest` (400), `ValidationError` (a
Mongoose save rejection, which reaches Express's default handler as a 500;
the app installs no error middleware) and `ServerError` (an exception caught
by a controller's own `catch`, answered 500 "Server error").

**Behaviour of the code that is easy to miss, which the model keeps:** `updateCartItem` skips the stock check when the line's product has
been deleted; when `addToCart` finds no cart it creates and stores an empty
one before the merged cart is validated, so a rejected save still leaves an
empty cart in the store; and a missing `payer` in a payment confirmation makes
`updateOrderToPaid` throw before saving.

## Model

| member | source | states |
|---|---|---|
| Seqs.FirstIndex | controllers/cartController.js:107-109 | the index returned holds the first element satisfying the predicate; None exactly when no element does (findIndex's -1) |
| Seqs.Filter | controllers/cartController.js:146-148 | the result holds exactly the elements of the input that pass, and is no longer than the input |
| Seqs.FilterConcat | controllers/cartController.js:146-148 | filtering distributes over concatenation, so kept elements stay in their relative order |
| Seqs.FilterAllPass | controllers/cartController.js:146-148 | when every element passes, filter returns its input unchanged |
| Seqs.FilterIdempotent | controllers/cartController.js:146-148 | filtering twice with one predicate equals filtering once |
| Seqs.FilterKeepsDistinctKeys | controllers/cartController.js:146-148 | filtering a sequence whose keys are distinct keeps them distinct |
| Money.RoundToCents | models/Cart.js:58-60 | the result is the amount to the nearest cent, ties away from zero (within half a cent, half-open on the side away from zero) |
| Money.RoundAddWholeCents | models/Cart.js:58-60 | adding whole cents commutes with rounding when both amounts have one sign |
| CartModel.Save | models/Cart.js:22-27 | a save succeeds and stores the cart unchanged only when every line has quantity at least 1, else fails with ValidationError naming a line that breaks the schema |
| CartModel.GetCartTotal | models/Cart.js:49-61 | subtotal is the exact sum of price × quantity; tax lies within half a cent of 10% of that unrounded subtotal; total within half a cent of subtotal + tax unrounded |
| CartModel.SubtotalConcat | models/Cart.js:50-52 | the subtotal of two runs of lines is the sum of their subtotals |
| CartModel.SubtotalNonNegative | models/Cart.js:50-52 | with prices ≥ 0 and quantities ≥ 1 the subtotal is ≥ 0 |
| CartModel.EmptyCartTotals | models/Cart.js:50-61 | an empty cart reports 0 subtotal, tax and total |
| CartModel.TotalIsSubtotalPlusTax | models/Cart.js:54-61 | with whole-cent prices the independently rounded total equals rounded subtotal plus rounded tax |
| CartModel.TotalsBounds | models/Cart.js:50-61 | with prices ≥ 0 and quantities ≥ 1, subtotal, tax and total are ≥ 0 and subtotal ≤ total |
| CartModel.TwoLineExample | models/Cart.js:49-61 | 199.99×1 + 69.99×2 reports 339.97, tax 34.00, total 373.97 |
| ProductController.Merge | controllers/productController.js:73-80 | each field takes the request value exactly when it is truthy (present, non-empty, non-zero), else keeps the old value |
| ProductController.CreateProduct | controllers/productController.js:42-49 | the new id maps to a product with exactly the six supplied fields; other products untouched; reply is the stored product |
| ProductController.GetProductById | controllers/productController.js:17-23 | found iff the id is in the catalog; otherwise NotFound |
| ProductController.UpdateProduct | controllers/productController.js:70-86 | a missing id is NotFound with the catalog unchanged; otherwise only that id changes, to the truthy merge |
| ProductController.DeleteProduct | controllers/productController.js:96-103 | a missing id is NotFound with the catalog unchanged; otherwise exactly that id is removed and the rest kept |
| ProductController.ReadBackAfterWrites | controllers/productController.js:17-103 | after a create the id reads back as exactly the supplied fields, after an update of an existing id as the truthy merge, after a delete as NotFound |
| ProductController.WritesLeaveOtherIds | controllers/productController.js:17-103 | create, update and delete of one id leave every other id reading as before |
| ProductController.FalsyUpdateIsNoOp | controllers/productController.js:72-82 | an update whose fields are all missing, null, 0 or "" leaves the catalog as it was |
| ProductController.ZeroCannotBeSetByUpdate | controllers/productController.js:76-78 | a non-zero price or stock can never be made 0 by an update |
| ProductController.ZeroPriceOnlyAtCreate | controllers/productController.js:76 | price 0 is stored by create, but a 0 in an update keeps the earlier price |
| CartController.AddLine | controllers/cartController.js:61-76 | the line already holding the product grows by the amount, all else unchanged; otherwise one snapshot line is appended at the end |
| CartController.GetUserCart | controllers/cartController.js:9-29 | always succeeds; an existing cart is returned and kept; with none, an empty cart for the user is created and stored |
| CartController.AddToCart | controllers/cartController.js:34-86 | NotFound for a missing product and InvalidRequest when stock < requested amount, both with the store unchanged; once product and stock pass, every failure is a save rejection answered ValidationError that leaves the found-or-created cart stored; success stores the merged cart, schema-valid, with its totals |
| CartController.AddToCartChecked | controllers/cartController.js:34-48 | a quantity below 1 is InvalidRequest with the store unchanged; otherwise behaves as addToCart |
| CartController.UpdateCartItem | controllers/cartController.js:91-130 | quantity < 1 is InvalidRequest before any lookup; no cart or no such line is NotFound; a product that still exists with stock below the quantity is InvalidRequest; every error leaves the store unchanged; success sets exactly that line's quantity, the stock check applying only if the product still exists, and replies with the totals of the stored lines |
| CartController.RemoveCartItem | controllers/cartController.js:135-156 | no cart is NotFound; the stored lines are the old lines without that id, in their old order (the same filter `RemoveKeepsOrder` is about); an absent id leaves the cart as it was; a valid cart never fails; the reply carries the totals of the stored lines |
| CartController.ClearCart | controllers/cartController.js:161-176 | no cart is NotFound; otherwise the same user's cart with no lines and zero totals |
| CartProperties.AddSucceedsIff | controllers/cartController.js:38-80 | on a valid cart, add succeeds iff the product exists, stock covers the requested amount, and the merged or new line passes the schema |
| CartProperties.AddLineKeepsUnique | controllers/cartController.js:61-76 | the merge keeps one line per product, and distinct line ids when the new id is fresh |
| CartProperties.AddPreservesWellFormed | controllers/cartController.js:51-80 | add keeps the stored cart schema-valid with one line per product and distinct line ids |
| CartProperties.UpdateSucceedsIff | controllers/cartController.js:95-124 | on a valid cart, update succeeds iff quantity ≥ 1, the line exists, and its product is gone or has enough stock |
| CartProperties.UpdatePreservesWellFormed | controllers/cartController.js:117-124 | update keeps the stored cart well formed |
| CartProperties.RemovePreservesWellFormed | controllers/cartController.js:146-150 | remove keeps the stored cart well formed |
| CartProperties.GetAndClearPreserveWellFormed | controllers/cartController.js:161-170 | reading and clearing keep the stored cart well formed |
| CartProperties.RemoveIdempotent | controllers/cartController.js:138-150 | removing a line id twice gives the same store and reply as removing it once |
| CartProperties.RemoveKeepsOrder | controllers/cartController.js:146-148 | the remaining lines keep their relative order |
| CartProperties.ClearThenGet | controllers/cartController.js:161-170 | after clearing, reading the cart yields the same user's empty cart with zero totals, not a missing cart |
| CartProperties.AddToEmpty | controllers/cartController.js:51-76 | the first add of a product to a missing or empty cart succeeds and stores a cart holding only the product's snapshot line with the requested quantity |
| CartProperties.AddToSameLine | controllers/cartController.js:61-67 | adding the product a one-line cart already holds succeeds and grows that line by the amount |
| CartProperties.AddSameProductTwice | controllers/cartController.js:61-76 | adding 2 then 3 of one product yields a single line with quantity 5 |
| CartProperties.CumulativeStockNotChecked | controllers/cartController.js:45-48 | two adds of 2 against a stock of 3 both succeed, leaving 4 in the cart |
| CartProperties.AddNegativeQuantityShrinksLine | controllers/cartController.js:45-67 | as written, adding −3 to a line of 5 succeeds and leaves 2 |
| CartProperties.AddCheckedNeverShrinks | controllers/cartController.js:65-76 | with the quantity checked, a successful add keeps every line's id and order, decreases no quantity, and the product's line holds at least the amount |
| CartProperties.DeletedProductSkipsStockCheck | controllers/cartController.js:117-121 | after the product is deleted, any quantity ≥ 1 is accepted for its line |
| OrderController.CreateOrder | controllers/orderController.js:13-24 | fails with InvalidRequest iff the items are present and empty (store unchanged); otherwise appends one unpaid, undelivered order holding the submitted fields, total price as sent |
| OrderController.GetOrderById | controllers/orderController.js:37-46 | NotFound iff no stored order has the id; otherwise a stored order with that id |
| OrderController.UpdateOrderToPaid | controllers/orderController.js:56-72 | NotFound for a missing order, ServerError for a payload without payer, both with the store unchanged; otherwise that order alone becomes paid at the given time with the payload's payment record, its other fields kept |
| OrderController.UpdateOrderToDelivered | controllers/orderController.js:93-103 | NotFound for a missing order with the store unchanged; otherwise that order alone becomes delivered at the given time, its other fields kept |
| OrderController.GetUserOrders | controllers/orderController.js:82 | every returned order belongs to the user and is stored; every stored order of the user is returned |
| OrderController.OperationsKeepIdsUnique | controllers/orderController.js:18-24 | creating with a fresh id and the two transitions keep order ids distinct |
| OrderController.PaidTwice | controllers/orderController.js:59-66 | paying twice leaves the order paid, with the later time and payload, as if paid once with them |
| OrderController.DeliveredTwice | controllers/orderController.js:96-97 | delivering twice leaves the order delivered with the later time |
| OrderController.SameIndexAfterUpdate | controllers/orderController.js:56 | updating the found order in place keeps it the order found for its id |
| OrderController.ReadBackAfterWrites | controllers/orderController.js:4-108 | reading by id after a create with a fresh id gives the created order (NotFound if the create was rejected); after a successful paid or delivered transition it gives the updated order |
| OrderController.UserOrdersExact | controllers/orderController.js:82 | an order is listed for a user iff it is stored and owned by that user |
| OrderController.UserOrdersKeepOrder | controllers/orderController.js:82 | the listing keeps store order |
| OrderController.CreatedOrderListedForOwner | controllers/orderController.js:18-24 | a created order is listed last for its owner and not for other users |

## Left out

- `controllers/authController.js`: password hashing and token signing are library calls the model cannot see; the only decision is an email-exists check.
- `seeder.js`, `app.js`, `routes/cart.js`: database reset scripts, server start-up and route tables, with no logic beyond dispatch.
- `getProducts` and `getOrders`: each returns the whole store; the `populate` joins of `getOrderById` and `getOrders` (user name and email) are database mechanics.
- Id generation: new line ids, product ids and order ids are parameters; `Date.now()` is the `now` parameter.
- CartModel.TotalIsSubtotalPlusTax: the equality belongs to the model's exact-decimal rounding, not to the source, whose rounding of doubles can report a total one cent away from subtotal plus tax (0.45 × 1 reports 0.45, 0.05 and 0.49).
- Ids are taken as canonical strings: the model compares product ids with one equality, while the source finds the product with `findById` (which casts the request string to an ObjectId) but merges lines by comparing `item.product.toString()` with the raw request string. A request id spelled differently from its canonical form (upper-case hex, say) finds the product but matches no line, so the source appends a second line for the same product; one line per product (`CartController.UniqueProducts`, `CartProperties.AddPreservesWellFormed`) holds only for canonical ids.
- JavaScript floating point: prices are whole cents and amounts exact integers, so `toFixed` and `parseFloat` round-off on binary doubles and sub-cent prices are not represented.
- JSON values of the wrong type: quantities, prices and stock are integers; a missing, fractional, NaN or string quantity (where `<` and `+=` coerce) is not modelled.
- Concurrency: each handler is one atomic step; lost updates between overlapping requests are not modelled.
- Store failures: a failing database call (answered 500 by the catch-alls) is not modelled.
- HTTP status codes and authentication/authorization middleware: replies are the `Error` kinds.
- ProductController.UpdateProduct: assumes `product.save()` succeeds, because the Product schema and its validators are not part of this model.
- ProductController.CreateProduct: takes all six fields as supplied; a body with missing fields depends on the Product schema, which is not part of this model.
- OrderController.CreateOrder: assumes `order.save()` succeeds and that a new order starts unpaid and undelivered with no timestamps; the Orders schema, which holds those defaults and validators, is not part of this model.
- OrderController.UpdateOrderToPaid: a `payer` that is present but not an object is not distinguished; the payment fields are copied as optional strings.

## Findings

| source | as written | input that shows it | evidently intended | confidence | as-written member | corrected member |
|---|---|---|---|---|---|---|
| controllers/cartController.js:45-67 | `addToCart` never checks that the quantity is at least 1; a negative quantity passes the stock check and `+=` shrinks an existing line, which the `min: 1` schema accepts while the result stays ≥ 1 | cart with one line of quantity 5 for product p; add p with quantity −3: succeeds, the line becomes 2 | reject a quantity below 1 with InvalidRequest, as `updateCartItem` does | medium; not executed | CartProperties.AddNegativeQuantityShrinksLine | CartController.AddToCartChecked |

The corrected `AddToCartChecked` is proved never to shrink a line
(`CartProperties.AddCheckedNeverShrinks`) and is the add used in the
two-adds scenario `CartProperties.AddSameProductTwice`.
