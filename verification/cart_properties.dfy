/** Properties of the cart handlers that relate several calls, or a call and
    the stored-cart invariant. */
module CartProperties {
  import opened Base
  import opened Seqs
  import opened CartModel
  import opened ProductController
  import opened CartController

  /** Whether the line `addToCart` produces passes the schema. */
  predicate NewLineValid(items: seq<CartItem>, pid: ProductId, p: Product, q: int) {
    match LineOfProduct(items, pid)
    case Some(i) => items[i].quantity + q >= 1
    case None => q >= 1 && p.name != "" && p.imageUrl != ""
  }

  /** On a schema-valid cart, `addToCart` succeeds exactly when the product
      exists, its stock covers the requested amount, and the merged or
      appended line passes the schema. */
  lemma AddSucceedsIff(catalog: Catalog, cart: Option<Cart>, user: UserId, pid: ProductId, q: int, freshId: ItemId)
    requires cart.Some? ==> ValidCart(cart.value)
    ensures AddToCart(catalog, cart, user, pid, q, freshId).reply.Ok? <==>
      pid in catalog && q <= catalog[pid].countInStock && NewLineValid(Opened(cart, user).items, pid, catalog[pid], q)
  {
    if pid in catalog && q <= catalog[pid].countInStock {
      var c := Opened(cart, user);
      var after := AddLine(c.items, pid, catalog[pid], q, freshId);
      match LineOfProduct(c.items, pid)
      case Some(i) =>
        assert ValidCart(c.(items := after)) <==> after[i].quantity >= 1 by {
          if after[i].quantity >= 1 {
            forall j | 0 <= j < |after|
              ensures ValidItem(after[j])
            {
              if j != i {
                assert after[j] == c.items[j];
              }
            }
          }
        }
      case None =>
        assert after[|c.items|] == CartItem(freshId, pid, catalog[pid].name, catalog[pid].imageUrl, catalog[pid].price, q);
        assert ValidCart(c.(items := after)) <==> ValidItem(after[|c.items|]) by {
          if ValidItem(after[|c.items|]) {
            forall j | 0 <= j < |after|
              ensures ValidItem(after[j])
            {
              if j < |c.items| {
                assert after[j] == c.items[j];
              }
            }
          }
        }
    }
  }

  /** The merge keeps one line per product and, with a fresh id for an
      appended line, distinct line ids. */
  lemma AddLineKeepsUnique(items: seq<CartItem>, pid: ProductId, p: Product, q: int, freshId: ItemId)
    requires UniqueProducts(items) && UniqueItemIds(items)
    requires !HasItemId(items, freshId)
    ensures UniqueProducts(AddLine(items, pid, p, q, freshId))
    ensures UniqueItemIds(AddLine(items, pid, p, q, freshId))
  {
    var after := AddLine(items, pid, p, q, freshId);
    match LineOfProduct(items, pid)
    case Some(i) =>
      assert forall j :: 0 <= j < |after| ==> ProductOf(after[j]) == ProductOf(items[j]) && IdOf(after[j]) == IdOf(items[j]);
    case None =>
      assert forall j :: 0 <= j < |items| ==> after[j] == items[j];
      assert ProductOf(after[|items|]) == pid && IdOf(after[|items|]) == freshId;
      assert forall j :: 0 <= j < |items| ==> ProductOf(items[j]) != pid;
      assert forall j :: 0 <= j < |items| ==> IdOf(items[j]) != freshId;
  }

  /** `addToCart` keeps the stored cart well formed: one line per product
      (the merge finds the existing line), schema-valid lines (save checks),
      and distinct line ids when the new line's id is fresh. */
  lemma AddPreservesWellFormed(catalog: Catalog, cart: Option<Cart>, user: UserId, pid: ProductId, q: int, freshId: ItemId)
    requires cart.Some? ==> WellFormed(cart.value)
    requires !HasItemId(Opened(cart, user).items, freshId)
    ensures var r := AddToCart(catalog, cart, user, pid, q, freshId);
      r.cart.Some? ==> WellFormed(r.cart.value)
  {
    if pid in catalog {
      AddLineKeepsUnique(Opened(cart, user).items, pid, catalog[pid], q, freshId);
    }
  }

  /** On a schema-valid cart, `updateCartItem` succeeds exactly when the
      quantity is at least 1, the line exists, and either the line's product
      is gone from the catalog or its stock covers the new quantity. */
  lemma UpdateSucceedsIff(catalog: Catalog, cart: Option<Cart>, itemId: ItemId, q: int)
    requires cart.Some? ==> ValidCart(cart.value)
    ensures UpdateCartItem(catalog, cart, itemId, q).reply.Ok? <==>
      && q >= 1 && cart.Some? && LineWithId(cart.value.items, itemId).Some?
      && var pid := cart.value.items[LineWithId(cart.value.items, itemId).value].product;
         (pid !in catalog || q <= catalog[pid].countInStock)
  {
    if q >= 1 && cart.Some? && LineWithId(cart.value.items, itemId).Some? {
      var c := cart.value;
      var i := LineWithId(c.items, itemId).value;
      var after := c.items[i := c.items[i].(quantity := q)];
      forall j | 0 <= j < |after|
        ensures ValidItem(after[j])
      {
        if j != i {
          assert after[j] == c.items[j];
        }
      }
      assert ValidCart(c.(items := after));
    }
  }

  /** `updateCartItem` keeps the stored cart well formed: it changes one
      quantity and no id. */
  lemma UpdatePreservesWellFormed(catalog: Catalog, cart: Option<Cart>, itemId: ItemId, q: int)
    requires cart.Some? ==> WellFormed(cart.value)
    ensures var r := UpdateCartItem(catalog, cart, itemId, q);
      r.cart.Some? ==> WellFormed(r.cart.value)
  {
    var r := UpdateCartItem(catalog, cart, itemId, q);
    if r.reply.Ok? {
      var before := cart.value.items;
      var after := r.reply.value.cart.items;
      forall a, b | 0 <= a < b < |after|
        ensures after[a].product != after[b].product && after[a].itemId != after[b].itemId
      {
        assert after[a].product == before[a].product && after[b].product == before[b].product;
        assert after[a].itemId == before[a].itemId && after[b].itemId == before[b].itemId;
      }
    }
  }

  /** `removeCartItem` keeps the stored cart well formed. */
  lemma RemovePreservesWellFormed(cart: Option<Cart>, itemId: ItemId)
    requires cart.Some? ==> WellFormed(cart.value)
    ensures var r := RemoveCartItem(cart, itemId);
      r.cart.Some? ==> WellFormed(r.cart.value)
  {
    if cart.Some? {
      FilterKeepsDistinctKeys(cart.value.items, WithoutItemId(itemId), ProductOf);
      FilterKeepsDistinctKeys(cart.value.items, WithoutItemId(itemId), IdOf);
    }
  }

  /** `getUserCart` and `clearCart` keep the stored cart well formed. */
  lemma GetAndClearPreserveWellFormed(cart: Option<Cart>, user: UserId)
    requires cart.Some? ==> WellFormed(cart.value)
    ensures GetUserCart(cart, user).cart.Some? ==> WellFormed(GetUserCart(cart, user).cart.value)
    ensures ClearCart(cart).cart.Some? ==> WellFormed(ClearCart(cart).cart.value)
  {
  }

  /** Removing a line twice is removing it once, whatever the cart. */
  lemma RemoveIdempotent(cart: Option<Cart>, itemId: ItemId)
    ensures RemoveCartItem(RemoveCartItem(cart, itemId).cart, itemId) == RemoveCartItem(cart, itemId)
  {
    if cart.Some? {
      FilterIdempotent(cart.value.items, WithoutItemId(itemId));
    }
  }

  /** Removal keeps the remaining lines in their relative order: removing
      from two runs of lines is removing from each run. */
  lemma RemoveKeepsOrder(a: seq<CartItem>, b: seq<CartItem>, itemId: ItemId)
    ensures Remaining(a + b, itemId) == Remaining(a, itemId) + Remaining(b, itemId)
  {
    FilterConcat(a, b, WithoutItemId(itemId));
  }

  /** A cleared cart is still there: reading it afterwards gives an empty
      cart, not a missing one. */
  lemma ClearThenGet(cart: Option<Cart>, user: UserId)
    requires cart.Some?
    ensures GetUserCart(ClearCart(cart).cart, user).cart == Some(Cart(cart.value.user, []))
    ensures GetUserCart(ClearCart(cart).cart, user).reply.value.totals == Totals(0, 0, 0)
  {
    EmptyCartTotals();
  }

  /** The first add of a product to a missing or empty cart stores a cart
      holding just the snapshot line. */
  lemma AddToEmpty(catalog: Catalog, cart: Option<Cart>, user: UserId, pid: ProductId, q: int, freshId: ItemId)
    requires cart == None || cart == Some(Cart(user, []))
    requires pid in catalog && 1 <= q <= catalog[pid].countInStock
    requires catalog[pid].name != "" && catalog[pid].imageUrl != ""
    ensures var p := catalog[pid];
      var r := AddToCart(catalog, cart, user, pid, q, freshId);
      r.reply.Ok? && r.cart == Some(Cart(user, [CartItem(freshId, pid, p.name, p.imageUrl, p.price, q)]))
  {
    var p := catalog[pid];
    var line := CartItem(freshId, pid, p.name, p.imageUrl, p.price, q);
    assert AddLine([], pid, p, q, freshId) == [line];
    assert ValidCart(Cart(user, [line]));
  }

  /** An add of the product a one-line cart already holds grows that line. */
  lemma AddToSameLine(catalog: Catalog, user: UserId, line: CartItem, q: int, freshId: ItemId)
    requires line.product in catalog && q <= catalog[line.product].countInStock
    requires ValidItem(line) && line.quantity + q >= 1
    ensures var r := AddToCart(catalog, Some(Cart(user, [line])), user, line.product, q, freshId);
      r.reply.Ok? && r.cart == Some(Cart(user, [line.(quantity := line.quantity + q)]))
  {
    assert LineOfProduct([line], line.product) == Some(0);
    var merged := [line.(quantity := line.quantity + q)];
    assert AddLine([line], line.product, catalog[line.product], q, freshId) == merged;
    assert ValidCart(Cart(user, merged));
  }

  /** Adding 2 and then 3 of one product to an empty cart gives one line with
      quantity 5, keeping the id and snapshot of the first add. */
  lemma AddSameProductTwice(catalog: Catalog, user: UserId, pid: ProductId, id1: ItemId, id2: ItemId)
    requires pid in catalog && catalog[pid].countInStock >= 3
    requires catalog[pid].name != "" && catalog[pid].imageUrl != ""
    ensures var first := AddToCartChecked(catalog, Some(Cart(user, [])), user, pid, 2, id1);
      var second := AddToCartChecked(catalog, first.cart, user, pid, 3, id2);
      var p := catalog[pid];
      second.reply.Ok? && second.reply.value.cart.items == [CartItem(id1, pid, p.name, p.imageUrl, p.price, 5)]
  {
    var p := catalog[pid];
    var line := CartItem(id1, pid, p.name, p.imageUrl, p.price, 2);
    AddToEmpty(catalog, Some(Cart(user, [])), user, pid, 2, id1);
    AddToSameLine(catalog, user, line, 3, id2);
  }

  /** The stock check looks at one request at a time: two adds of 2 against a
      stock of 3 both succeed and leave 4 in the cart. */
  lemma CumulativeStockNotChecked(catalog: Catalog, user: UserId, pid: ProductId, id1: ItemId, id2: ItemId)
    requires pid in catalog && catalog[pid].countInStock == 3
    requires catalog[pid].name != "" && catalog[pid].imageUrl != ""
    ensures var first := AddToCart(catalog, None, user, pid, 2, id1);
      var second := AddToCart(catalog, first.cart, user, pid, 2, id2);
      && second.reply.Ok?
      && |second.reply.value.cart.items| == 1
      && second.reply.value.cart.items[0].quantity == 4 > catalog[pid].countInStock
  {
    var p := catalog[pid];
    var line := CartItem(id1, pid, p.name, p.imageUrl, p.price, 2);
    AddToEmpty(catalog, None, user, pid, 2, id1);
    AddToSameLine(catalog, user, line, 2, id2);
  }

  /** As written, `addToCart` accepts a negative quantity: the stock check
      passes trivially and a line of 5 shrinks to 2. */
  lemma AddNegativeQuantityShrinksLine(catalog: Catalog, user: UserId, pid: ProductId, line: CartItem, freshId: ItemId)
    requires pid in catalog && catalog[pid].countInStock >= 0
    requires line.product == pid && line.quantity == 5 && ValidItem(line)
    ensures var r := AddToCart(catalog, Some(Cart(user, [line])), user, pid, -3, freshId);
      r.reply.Ok? && r.reply.value.cart.items == [line.(quantity := 2)]
  {
    assert LineOfProduct([line], pid) == Some(0);
  }

  /** With the quantity checked, an add never shrinks a line: the lines keep
      their ids and order, no quantity decreases, and the product's line
      holds at least the requested amount. */
  lemma AddCheckedNeverShrinks(catalog: Catalog, cart: Option<Cart>, user: UserId, pid: ProductId, q: int, freshId: ItemId)
    requires cart.Some? ==> ValidCart(cart.value)
    ensures var r := AddToCartChecked(catalog, cart, user, pid, q, freshId);
      var before := Opened(cart, user).items;
      r.reply.Ok? ==>
        && q >= 1
        && |r.reply.value.cart.items| >= |before|
        && (forall j :: 0 <= j < |before| ==>
              r.reply.value.cart.items[j].itemId == before[j].itemId
              && r.reply.value.cart.items[j].quantity >= before[j].quantity)
        && exists k :: 0 <= k < |r.reply.value.cart.items| && r.reply.value.cart.items[k].product == pid
             && r.reply.value.cart.items[k].quantity >= q
  {
    var r := AddToCartChecked(catalog, cart, user, pid, q, freshId);
    if r.reply.Ok? {
      var before := Opened(cart, user).items;
      var after := r.reply.value.cart.items;
      match LineOfProduct(before, pid)
      case Some(i) =>
        assert before[i].quantity >= 1;
        assert after[i].product == pid;
      case None =>
        assert after[|before|].product == pid;
        forall j | 0 <= j < |before|
          ensures after[j] == before[j]
        {
        }
    }
  }

  /** Deleting a product does not cascade to carts, and `updateCartItem`
      then skips the stock check for its line: any quantity of at least 1 is
      accepted. */
  lemma DeletedProductSkipsStockCheck(catalog: Catalog, cart: Cart, itemId: ItemId, q: int)
    requires ValidCart(cart) && q >= 1
    requires LineWithId(cart.items, itemId).Some?
    ensures var pid := cart.items[LineWithId(cart.items, itemId).value].product;
      var catalog' := DeleteProduct(catalog, pid).catalog;
      UpdateCartItem(catalog', Some(cart), itemId, q).reply.Ok?
  {
    var pid := cart.items[LineWithId(cart.items, itemId).value].product;
    UpdateSucceedsIff(DeleteProduct(catalog, pid).catalog, Some(cart), itemId, q);
  }
}
