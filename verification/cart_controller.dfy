/** The cart handlers as transitions of one user's stored cart. Each takes the
    catalog and the cart found for the user (`None` when there is none) and
    yields the cart left in the store together with the reply. */
module CartController {
  import opened Base
  import opened Seqs
  import opened CartModel
  import opened ProductController

  /** A successful reply: the cart and its totals. */
  datatype CartView = CartView(cart: Cart, totals: Totals)

  /** The cart left in the store, and the reply. */
  datatype Step = Step(cart: Option<Cart>, reply: Result<CartView>)

  function View(c: Cart): CartView {
    CartView(c, GetCartTotal(c.items))
  }

  /** `cart.save()` followed by the reply: the store keeps `before` when
      validation rejects `c`. */
  function Persist(before: Option<Cart>, c: Cart): Step {
    match Save(c)
    case Ok(saved) => Step(Some(saved), Ok(View(saved)))
    case Err(e) => Step(before, Err(e))
  }

  /** The cart a handler works on after "find or create": the stored one, or
      a fresh empty cart for the user. */
  function Opened(cart: Option<Cart>, user: UserId): Cart {
    cart.GetOr(Cart(user, []))
  }

  function ForProduct(pid: ProductId): CartItem -> bool {
    (it: CartItem) => it.product == pid
  }

  function WithItemId(id: ItemId): CartItem -> bool {
    (it: CartItem) => it.itemId == id
  }

  function WithoutItemId(id: ItemId): CartItem -> bool {
    (it: CartItem) => it.itemId != id
  }

  /** The index `findIndex` yields for the line holding product `pid`. */
  function LineOfProduct(items: seq<CartItem>, pid: ProductId): Option<nat> {
    FirstIndex(items, ForProduct(pid))
  }

  /** The index `findIndex` yields for the line whose own id is `id`. */
  function LineWithId(items: seq<CartItem>, id: ItemId): Option<nat> {
    FirstIndex(items, WithItemId(id))
  }

  /** The lines `filter` keeps when line `id` is removed. */
  function Remaining(items: seq<CartItem>, id: ItemId): (r: seq<CartItem>)
    ensures !HasItemId(items, id) ==> r == items
    ensures (forall i :: 0 <= i < |items| ==> ValidItem(items[i])) ==> forall k :: 0 <= k < |r| ==> ValidItem(r[k])
  {
    RemainingFacts(items, id);
    Filter(items, WithoutItemId(id))
  }

  lemma RemainingFacts(items: seq<CartItem>, id: ItemId)
    ensures !HasItemId(items, id) ==> Filter(items, WithoutItemId(id)) == items
    ensures (forall i :: 0 <= i < |items| ==> ValidItem(items[i])) ==>
      var r := Filter(items, WithoutItemId(id));
      forall k :: 0 <= k < |r| ==> ValidItem(r[k])
  {
    if !HasItemId(items, id) {
      FilterAllPass(items, WithoutItemId(id));
    }
  }

  /** Some line has the own id `id`: `findIndex` does not answer -1. */
  predicate HasItemId(items: seq<CartItem>, id: ItemId) {
    LineWithId(items, id).Some?
  }

  function ProductOf(it: CartItem): ProductId {
    it.product
  }

  function IdOf(it: CartItem): ItemId {
    it.itemId
  }

  /** At most one line per product. */
  predicate UniqueProducts(items: seq<CartItem>) {
    DistinctKeys(items, ProductOf)
  }

  /** Line ids are distinct. */
  predicate UniqueItemIds(items: seq<CartItem>) {
    DistinctKeys(items, IdOf)
  }

  /** What every stored cart satisfies: schema-valid lines, one line per
      product, distinct line ids. */
  predicate WellFormed(c: Cart) {
    ValidCart(c) && UniqueProducts(c.items) && UniqueItemIds(c.items)
  }

  /** `after` is `before` with the quantity of line `i` set to `q` and every
      other line, and the number of lines, unchanged. */
  ghost predicate QuantitySet(before: seq<CartItem>, after: seq<CartItem>, i: int, q: int) {
    && 0 <= i < |before|
    && |after| == |before|
    && after[i] == before[i].(quantity := q)
    && forall j :: 0 <= j < |before| && j != i ==> after[j] == before[j]
  }

  /** The merge rule of `addToCart`: the line already holding the product
      grows by `q`; otherwise one line snapshotting the product is appended. */
  ghost predicate Added(before: seq<CartItem>, after: seq<CartItem>, pid: ProductId, p: Product, q: int, freshId: ItemId) {
    match LineOfProduct(before, pid)
    case Some(i) => QuantitySet(before, after, i, before[i].quantity + q)
    case None => after == before + [CartItem(freshId, pid, p.name, p.imageUrl, p.price, q)]
  }

  /** The in-memory change `addToCart` makes to the lines. */
  function AddLine(items: seq<CartItem>, pid: ProductId, p: Product, q: int, freshId: ItemId): (r: seq<CartItem>)
    ensures Added(items, r, pid, p, q, freshId)
  {
    match LineOfProduct(items, pid)
    case Some(i) => items[i := items[i].(quantity := items[i].quantity + q)]
    case None => items + [CartItem(freshId, pid, p.name, p.imageUrl, p.price, q)]
  }

  /** `getUserCart`: answers with the stored cart, creating an empty one for
      the user when there is none. */
  function GetUserCart(cart: Option<Cart>, user: UserId): (r: Step)
    ensures r.reply.Ok? && r.cart == Some(r.reply.value.cart)
    ensures cart.Some? ==> r.cart == cart
    ensures cart.None? ==> r.reply.value.cart == Cart(user, [])
    ensures r.reply.value.totals == GetCartTotal(r.reply.value.cart.items)
  {
    var c := Opened(cart, user);
    Step(Some(c), Ok(View(c)))
  }

  /** `addToCart`. The stock check compares the requested amount alone with
      the stock. When no cart exists one is created before the line is merged,
      so a rejected save still leaves an empty cart behind. */
  function AddToCart(catalog: Catalog, cart: Option<Cart>, user: UserId, productId: ProductId, quantity: int, freshId: ItemId): (r: Step)
    ensures productId !in catalog ==> r == Step(cart, Err(NotFound))
    ensures productId in catalog && catalog[productId].countInStock < quantity ==> r == Step(cart, Err(InvalidRequest))
    ensures r.reply.Err? ==> r.reply.error == NotFound || r.reply.error == InvalidRequest || r.reply.error == ValidationError
    ensures productId in catalog && quantity <= catalog[productId].countInStock && r.reply.Err? ==>
      r == Step(Some(Opened(cart, user)), Err(ValidationError))
    ensures r.reply.Ok? ==> productId in catalog && quantity <= catalog[productId].countInStock
    ensures r.reply.Ok? ==> r.cart == Some(r.reply.value.cart) && ValidCart(r.reply.value.cart)
    ensures r.reply.Ok? ==> r.reply.value.cart.user == Opened(cart, user).user
    ensures r.reply.Ok? ==> Added(Opened(cart, user).items, r.reply.value.cart.items, productId, catalog[productId], quantity, freshId)
    ensures r.reply.Ok? ==> r.reply.value.totals == GetCartTotal(r.reply.value.cart.items)
  {
    if productId !in catalog then Step(cart, Err(NotFound))
    else
      var p := catalog[productId];
      if p.countInStock < quantity then Step(cart, Err(InvalidRequest))
      else
        var c := Opened(cart, user);
        Persist(Some(c), c.(items := AddLine(c.items, productId, p, quantity, freshId)))
  }

  /** `addToCart` with the quantity check it lacks: a quantity below 1 is
      rejected up front, as `updateCartItem` does. */
  function AddToCartChecked(catalog: Catalog, cart: Option<Cart>, user: UserId, productId: ProductId, quantity: int, freshId: ItemId): (r: Step)
    ensures quantity < 1 ==> r == Step(cart, Err(InvalidRequest))
    ensures quantity >= 1 ==> r == AddToCart(catalog, cart, user, productId, quantity, freshId)
  {
    if quantity < 1 then Step(cart, Err(InvalidRequest))
    else AddToCart(catalog, cart, user, productId, quantity, freshId)
  }

  /** `updateCartItem`: sets the quantity of one line, found by its own id. */
  function UpdateCartItem(catalog: Catalog, cart: Option<Cart>, itemId: ItemId, quantity: int): (r: Step)
    ensures quantity < 1 ==> r == Step(cart, Err(InvalidRequest))
    ensures quantity >= 1 && cart.None? ==> r == Step(cart, Err(NotFound))
    ensures quantity >= 1 && cart.Some? && !HasItemId(cart.value.items, itemId) ==> r == Step(cart, Err(NotFound))
    ensures
      (&& quantity >= 1 && cart.Some? && LineWithId(cart.value.items, itemId).Some?
       && var pid := cart.value.items[LineWithId(cart.value.items, itemId).value].product;
          pid in catalog && catalog[pid].countInStock < quantity)
      ==> r == Step(cart, Err(InvalidRequest))
    ensures r.reply.Err? ==> r.cart == cart
    ensures r.reply.Ok? ==> quantity >= 1 && cart.Some? && LineWithId(cart.value.items, itemId).Some?
    ensures r.reply.Ok? ==>
      var i := LineWithId(cart.value.items, itemId).value;
      var pid := cart.value.items[i].product;
      && (pid in catalog ==> quantity <= catalog[pid].countInStock)
      && r.cart == Some(r.reply.value.cart)
      && r.reply.value.cart.user == cart.value.user
      && QuantitySet(cart.value.items, r.reply.value.cart.items, i, quantity)
    ensures r.reply.Ok? ==> r.reply.value.totals == GetCartTotal(r.reply.value.cart.items)
  {
    if quantity < 1 then Step(cart, Err(InvalidRequest))
    else match cart
      case None => Step(cart, Err(NotFound))
      case Some(c) =>
        match LineWithId(c.items, itemId)
        case None => Step(cart, Err(NotFound))
        case Some(i) =>
          var pid := c.items[i].product;
          if pid in catalog && catalog[pid].countInStock < quantity then Step(cart, Err(InvalidRequest))
          else Persist(cart, c.(items := c.items[i := c.items[i].(quantity := quantity)]))
  }

  /** `removeCartItem`: drops every line with the given id, keeping the others
      in order; an id no line has leaves the lines as they were. */
  function RemoveCartItem(cart: Option<Cart>, itemId: ItemId): (r: Step)
    ensures cart.None? ==> r == Step(cart, Err(NotFound))
    ensures cart.Some? && ValidCart(cart.value) ==> r.reply.Ok?
    ensures r.reply.Err? ==> r.cart == cart
    ensures r.reply.Ok? ==> cart.Some? && r.cart == Some(r.reply.value.cart) && r.reply.value.cart.user == cart.value.user
    ensures r.reply.Ok? ==> forall k :: 0 <= k < |r.reply.value.cart.items| ==>
      r.reply.value.cart.items[k] in cart.value.items && r.reply.value.cart.items[k].itemId != itemId
    ensures r.reply.Ok? ==> forall k :: 0 <= k < |cart.value.items| && cart.value.items[k].itemId != itemId ==>
      cart.value.items[k] in r.reply.value.cart.items
    ensures r.reply.Ok? && !HasItemId(cart.value.items, itemId) ==> r.reply.value.cart == cart.value
    ensures r.reply.Ok? ==> r.reply.value.cart.items == Remaining(cart.value.items, itemId)
    ensures r.reply.Ok? ==> r.reply.value.totals == GetCartTotal(r.reply.value.cart.items)
  {
    match cart
    case None => Step(cart, Err(NotFound))
    case Some(c) =>
      Persist(cart, c.(items := Remaining(c.items, itemId)))
  }

  /** `clearCart`: empties the lines of an existing cart. */
  function ClearCart(cart: Option<Cart>): (r: Step)
    ensures cart.None? ==> r == Step(cart, Err(NotFound))
    ensures cart.Some? ==> r.reply.Ok? && r.reply.value.cart == Cart(cart.value.user, [])
    ensures cart.Some? ==> r.cart == Some(r.reply.value.cart) && r.reply.value.totals == Totals(0, 0, 0)
  {
    match cart
    case None => Step(cart, Err(NotFound))
    case Some(c) =>
      EmptyCartTotals();
      Persist(cart, c.(items := []))
  }
}
