/** The cart document: its line-item schema and `getCartTotal`. */
module CartModel {
  import opened Base
  import Money

  /** One cart line. `itemId` is the sub-document's own `_id`; `product` is a
      weak reference to the catalog; `name`, `image` and `price` are the
      product's values when the line was created. `price` is in cents. */
  datatype CartItem = CartItem(
    itemId: ItemId,
    product: ProductId,
    name: string,
    image: string,
    price: int,
    quantity: int)

  /** The cart of one user: its lines in insertion order. */
  datatype Cart = Cart(user: UserId, items: seq<CartItem>)

  /** Rounded amounts in cents, as `getCartTotal` reports them. */
  datatype Totals = Totals(subtotal: int, tax: int, total: int)

  /** The line-item schema: `name` and `image` are required strings (Mongoose's
      `required` rejects the empty string) and `quantity` has `min: 1`. */
  predicate ValidItem(it: CartItem) {
    it.name != "" && it.image != "" && it.quantity >= 1
  }

  /** A cart every line of which passes the schema. */
  predicate ValidCart(c: Cart) {
    forall i :: 0 <= i < |c.items| ==> ValidItem(c.items[i])
  }

  /** `cart.save()`: Mongoose validates the whole document and writes it
      unchanged, or rejects it with a validation error. */
  function Save(c: Cart): (r: Result<Cart>)
    ensures r.Ok? ==> r.value == c
    ensures r.Ok? ==> forall i :: 0 <= i < |c.items| ==> c.items[i].quantity >= 1
    ensures r.Err? ==> r.error == ValidationError
    ensures r.Err? ==> exists i :: 0 <= i < |c.items| && !ValidItem(c.items[i])
  {
    if ValidCart(c) then Ok(c) else Err(ValidationError)
  }

  /** Price times quantity of one line, in cents. */
  function LineTotal(it: CartItem): int {
    it.price * it.quantity
  }

  /** The exact sum of price times quantity over the lines, in cents,
      accumulated from the left as `reduce` does. */
  function Subtotal(items: seq<CartItem>): int {
    if |items| == 0 then 0
    else Subtotal(items[..|items| - 1]) + LineTotal(items[|items| - 1])
  }

  /** `getCartTotal`: the subtotal, a 10% tax computed from the unrounded
      subtotal, and their unrounded sum, each rounded to cents on its own.
      In mills the unrounded subtotal is 10 * S, the tax S and the total 11 * S. */
  function GetCartTotal(items: seq<CartItem>): (t: Totals)
    ensures t.subtotal == Subtotal(items)
    ensures Subtotal(items) >= 0 ==> 10 * t.tax - 5 <= Subtotal(items) < 10 * t.tax + 5
    ensures Subtotal(items) < 0 ==> 10 * t.tax - 5 < Subtotal(items) <= 10 * t.tax + 5
    ensures Subtotal(items) >= 0 ==> 10 * t.total - 5 <= 11 * Subtotal(items) < 10 * t.total + 5
    ensures Subtotal(items) < 0 ==> 10 * t.total - 5 < 11 * Subtotal(items) <= 10 * t.total + 5
  {
    var subtotalMills := 10 * Subtotal(items);
    var taxMills := subtotalMills / 10;
    var totalMills := subtotalMills + taxMills;
    Money.RoundWholeCents(Subtotal(items));
    Totals(Money.RoundToCents(subtotalMills), Money.RoundToCents(taxMills), Money.RoundToCents(totalMills))
  }

  /** The subtotal of two runs of lines is the sum of their subtotals. */
  lemma {:induction false} SubtotalConcat(a: seq<CartItem>, b: seq<CartItem>)
    ensures Subtotal(a + b) == Subtotal(a) + Subtotal(b)
  {
    if |b| == 0 {
      assert a + b == a;
    } else {
      var b' := b[..|b| - 1];
      assert (a + b)[..|a + b| - 1] == a + b';
      SubtotalConcat(a, b');
    }
  }

  /** The subtotal of a one-line cart is that line's price times quantity. */
  lemma SubtotalSingle(it: CartItem)
    ensures Subtotal([it]) == it.price * it.quantity
  {
    assert [it][..0] == [];
  }

  /** With non-negative prices and schema-valid quantities the subtotal is
      never negative. */
  lemma {:induction false} SubtotalNonNegative(items: seq<CartItem>)
    requires forall i :: 0 <= i < |items| ==> items[i].price >= 0 && items[i].quantity >= 1
    ensures Subtotal(items) >= 0
  {
    if |items| > 0 {
      SubtotalNonNegative(items[..|items| - 1]);
      var last := items[|items| - 1];
      assert last.price * last.quantity >= 0;
    }
  }

  /** An empty cart totals zero on every line of the report. */
  lemma EmptyCartTotals()
    ensures GetCartTotal([]) == Totals(0, 0, 0)
  {
  }

  /** Under the declared rounding of exact amounts (halves away from zero),
      rounding the three amounts independently opens no gap: the rounded
      total is the rounded subtotal plus the rounded tax. */
  lemma TotalIsSubtotalPlusTax(items: seq<CartItem>)
    ensures GetCartTotal(items).total == GetCartTotal(items).subtotal + GetCartTotal(items).tax
  {
    var s := Subtotal(items);
    Money.RoundAddWholeCents(s, s);
  }

  /** With non-negative prices and valid quantities, every reported amount is
      non-negative and the total is at least the subtotal. */
  lemma TotalsBounds(items: seq<CartItem>)
    requires forall i :: 0 <= i < |items| ==> items[i].price >= 0 && items[i].quantity >= 1
    ensures 0 <= GetCartTotal(items).subtotal <= GetCartTotal(items).total
    ensures 0 <= GetCartTotal(items).tax
  {
    SubtotalNonNegative(items);
    TotalIsSubtotalPlusTax(items);
  }

  /** A worked example: lines of 199.99 x 1 and 69.99 x 2
      give 339.97, a tax of 33.997 reported as 34.00 and a total of 373.97. */
  lemma TwoLineExample(a: CartItem, b: CartItem)
    requires a.price == 19999 && a.quantity == 1
    requires b.price == 6999 && b.quantity == 2
    ensures GetCartTotal([a, b]) == Totals(33997, 3400, 37397)
  {
    SubtotalConcat([a], [b]);
    SubtotalSingle(a);
    SubtotalSingle(b);
    assert [a] + [b] == [a, b];
  }
}
