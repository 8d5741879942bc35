/** The order handlers. The store is the sequence of orders in insertion
    order; orders are found by id as `findById` does. */
module OrderController {
  import opened Base
  import opened Seqs

  /** One ordered item as the client submits it; `price` is in cents. */
  datatype OrderItem = OrderItem(name: string, quantity: int, price: int, product: ProductId)

  /** The payment record built from a payment confirmation. */
  datatype PaymentResult = PaymentResult(
    id: Option<string>,
    status: Option<string>,
    updateTime: Option<string>,
    emailAddress: Option<string>)

  datatype Payer = Payer(emailAddress: Option<string>)

  /** The body of a payment confirmation; `payer` may be missing. */
  datatype PaymentPayload = PaymentPayload(
    id: Option<string>,
    status: Option<string>,
    updateTime: Option<string>,
    payer: Option<Payer>)

  /** The body of an order submission; every field may be missing. The
      shipping address is the JSON object as submitted. */
  datatype OrderRequest = OrderRequest(
    orderItems: Option<seq<OrderItem>>,
    shippingAddress: Option<map<string, string>>,
    paymentMethod: Option<string>,
    totalPrice: Option<int>)

  /** A stored order: the submitted fields verbatim plus the two flags and
      their timestamps. */
  datatype Order = Order(
    id: OrderId,
    user: UserId,
    orderItems: Option<seq<OrderItem>>,
    shippingAddress: Option<map<string, string>>,
    paymentMethod: Option<string>,
    totalPrice: Option<int>,
    isPaid: bool,
    paidAt: Option<Time>,
    paymentResult: Option<PaymentResult>,
    isDelivered: bool,
    deliveredAt: Option<Time>)

  /** The orders left in the store, and the reply. */
  datatype OrderStep = OrderStep(orders: seq<Order>, reply: Result<Order>)

  function HasId(id: OrderId): Order -> bool {
    (o: Order) => o.id == id
  }

  function OwnedBy(user: UserId): Order -> bool {
    (o: Order) => o.user == user
  }

  function IdOf(o: Order): OrderId {
    o.id
  }

  /** Order ids are distinct. */
  predicate UniqueIds(orders: seq<Order>) {
    DistinctKeys(orders, IdOf)
  }

  /** `orders` and `orders'` agree everywhere except possibly at index `i`. */
  ghost predicate OthersUnchanged(orders: seq<Order>, orders': seq<Order>, i: int) {
    |orders'| == |orders| && forall j :: 0 <= j < |orders| && j != i ==> orders'[j] == orders[j]
  }

  /** `createOrder`: an items list that is present but empty is rejected;
      a missing one passes. The submitted total is stored as sent, not
      recomputed from the items; the order starts unpaid and undelivered. */
  function CreateOrder(orders: seq<Order>, user: UserId, req: OrderRequest, freshId: OrderId): (r: OrderStep)
    ensures r.reply.Err? <==> req.orderItems == Some([])
    ensures r.reply.Err? ==> r == OrderStep(orders, Err(InvalidRequest))
    ensures r.reply.Ok? ==> r.orders == orders + [r.reply.value]
    ensures r.reply.Ok? ==>
      var o := r.reply.value;
      && o.id == freshId && o.user == user
      && o.orderItems == req.orderItems && o.shippingAddress == req.shippingAddress
      && o.paymentMethod == req.paymentMethod && o.totalPrice == req.totalPrice
      && !o.isPaid && o.paidAt.None? && o.paymentResult.None?
      && !o.isDelivered && o.deliveredAt.None?
  {
    if req.orderItems == Some([]) then OrderStep(orders, Err(InvalidRequest))
    else
      var o := Order(freshId, user, req.orderItems, req.shippingAddress, req.paymentMethod, req.totalPrice,
                     false, None, None, false, None);
      OrderStep(orders + [o], Ok(o))
  }

  /** `getOrderById` without the join on the owning user. */
  function GetOrderById(orders: seq<Order>, id: OrderId): (r: Result<Order>)
    ensures r.Ok? ==> r.value in orders && r.value.id == id
    ensures r.Err? <==> forall j :: 0 <= j < |orders| ==> orders[j].id != id
    ensures r.Err? ==> r.error == NotFound
  {
    match FirstIndex(orders, HasId(id))
    case Some(i) => Ok(orders[i])
    case None => Err(NotFound)
  }

  /** `updateOrderToPaid`: marks the order paid at `now` and records the
      payment payload. A missing order is NotFound; a payload without a
      payer makes reading the payer's email throw, answered as a server
      error. Either failure leaves the store unchanged. */
  function UpdateOrderToPaid(orders: seq<Order>, id: OrderId, payload: PaymentPayload, now: Time): (r: OrderStep)
    ensures FirstIndex(orders, HasId(id)).None? ==> r == OrderStep(orders, Err(NotFound))
    ensures FirstIndex(orders, HasId(id)).Some? && payload.payer.None? ==> r == OrderStep(orders, Err(ServerError))
    ensures r.reply.Ok? <==> FirstIndex(orders, HasId(id)).Some? && payload.payer.Some?
    ensures r.reply.Ok? ==>
      var i := FirstIndex(orders, HasId(id)).value;
      var o := r.reply.value;
      && OthersUnchanged(orders, r.orders, i) && r.orders[i] == o
      && o.isPaid && o.paidAt == Some(now)
      && o.paymentResult == Some(PaymentResult(payload.id, payload.status, payload.updateTime, payload.payer.value.emailAddress))
      && o.(isPaid := orders[i].isPaid, paidAt := orders[i].paidAt, paymentResult := orders[i].paymentResult) == orders[i]
  {
    match FirstIndex(orders, HasId(id))
    case None => OrderStep(orders, Err(NotFound))
    case Some(i) =>
      match payload.payer
      case None => OrderStep(orders, Err(ServerError))
      case Some(payer) =>
        var result := PaymentResult(payload.id, payload.status, payload.updateTime, payer.emailAddress);
        var o := orders[i].(isPaid := true, paidAt := Some(now), paymentResult := Some(result));
        OrderStep(orders[i := o], Ok(o))
  }

  /** `updateOrderToDelivered`: marks the order delivered at `now`; a
      missing order is NotFound and leaves the store unchanged. */
  function UpdateOrderToDelivered(orders: seq<Order>, id: OrderId, now: Time): (r: OrderStep)
    ensures FirstIndex(orders, HasId(id)).None? ==> r == OrderStep(orders, Err(NotFound))
    ensures r.reply.Ok? <==> FirstIndex(orders, HasId(id)).Some?
    ensures r.reply.Ok? ==>
      var i := FirstIndex(orders, HasId(id)).value;
      var o := r.reply.value;
      && OthersUnchanged(orders, r.orders, i) && r.orders[i] == o
      && o.isDelivered && o.deliveredAt == Some(now)
      && o.(isDelivered := orders[i].isDelivered, deliveredAt := orders[i].deliveredAt) == orders[i]
  {
    match FirstIndex(orders, HasId(id))
    case None => OrderStep(orders, Err(NotFound))
    case Some(i) =>
      var o := orders[i].(isDelivered := true, deliveredAt := Some(now));
      OrderStep(orders[i := o], Ok(o))
  }

  /** `getUserOrders`: the orders of one user, in store order. */
  function GetUserOrders(orders: seq<Order>, user: UserId): (r: seq<Order>)
    ensures forall k :: 0 <= k < |r| ==> r[k].user == user && r[k] in orders
    ensures forall j :: 0 <= j < |orders| && orders[j].user == user ==> orders[j] in r
  {
    Filter(orders, OwnedBy(user))
  }

  /** A fresh id keeps order ids distinct, and the transitions never change
      an id. */
  lemma OperationsKeepIdsUnique(orders: seq<Order>, user: UserId, req: OrderRequest, freshId: OrderId,
                                id: OrderId, payload: PaymentPayload, now: Time)
    requires UniqueIds(orders)
    requires forall j :: 0 <= j < |orders| ==> orders[j].id != freshId
    ensures UniqueIds(CreateOrder(orders, user, req, freshId).orders)
    ensures UniqueIds(UpdateOrderToPaid(orders, id, payload, now).orders)
    ensures UniqueIds(UpdateOrderToDelivered(orders, id, now).orders)
  {
    var created := CreateOrder(orders, user, req, freshId).orders;
    if created != orders {
      assert forall j :: 0 <= j < |orders| ==> created[j] == orders[j];
    }
    var paid := UpdateOrderToPaid(orders, id, payload, now).orders;
    assert forall j :: 0 <= j < |orders| ==> IdOf(paid[j]) == IdOf(orders[j]);
    var delivered := UpdateOrderToDelivered(orders, id, now).orders;
    assert forall j :: 0 <= j < |orders| ==> IdOf(delivered[j]) == IdOf(orders[j]);
  }

  /** Paying twice keeps the order paid, and the later time and payload win;
      nothing guards against the repeat. */
  lemma PaidTwice(orders: seq<Order>, id: OrderId, p1: PaymentPayload, t1: Time, p2: PaymentPayload, t2: Time)
    requires UpdateOrderToPaid(orders, id, p1, t1).reply.Ok?
    requires p2.payer.Some?
    ensures var first := UpdateOrderToPaid(orders, id, p1, t1);
      var second := UpdateOrderToPaid(first.orders, id, p2, t2);
      && second.reply.Ok? && second.reply.value.isPaid && second.reply.value.paidAt == Some(t2)
      && second.reply.value.paymentResult == UpdateOrderToPaid(orders, id, p2, t2).reply.value.paymentResult
      && second.orders == UpdateOrderToPaid(orders, id, p2, t2).orders
  {
    var i := FirstIndex(orders, HasId(id)).value;
    var first := UpdateOrderToPaid(orders, id, p1, t1);
    SameIndexAfterUpdate(orders, first.orders, id, i);
  }

  /** Delivering twice keeps the order delivered with the later time. */
  lemma DeliveredTwice(orders: seq<Order>, id: OrderId, t1: Time, t2: Time)
    requires FirstIndex(orders, HasId(id)).Some?
    ensures var first := UpdateOrderToDelivered(orders, id, t1);
      var second := UpdateOrderToDelivered(first.orders, id, t2);
      && second.reply.Ok? && second.reply.value.isDelivered && second.reply.value.deliveredAt == Some(t2)
      && second.orders == UpdateOrderToDelivered(orders, id, t2).orders
  {
    var i := FirstIndex(orders, HasId(id)).value;
    var first := UpdateOrderToDelivered(orders, id, t1);
    SameIndexAfterUpdate(orders, first.orders, id, i);
  }

  /** Updating the order found for `id` in place keeps `findById` on it. */
  lemma SameIndexAfterUpdate(orders: seq<Order>, orders': seq<Order>, id: OrderId, i: nat)
    requires FirstIndex(orders, HasId(id)) == Some(i)
    requires OthersUnchanged(orders, orders', i) && orders'[i].id == id
    ensures FirstIndex(orders', HasId(id)) == Some(i)
  {
    var r := FirstIndex(orders', HasId(id));
    assert HasId(id)(orders'[i]);
    assert forall j :: 0 <= j < i ==> orders'[j] == orders[j];
  }

  /** Each write is read back by `getOrderById`: a created order under its
      fresh id (and nothing under that id when the create is rejected), and
      the updated order after either transition. */
  lemma {:induction false} ReadBackAfterWrites(orders: seq<Order>, user: UserId, req: OrderRequest, freshId: OrderId,
                                               id: OrderId, payload: PaymentPayload, now: Time)
    requires forall j :: 0 <= j < |orders| ==> orders[j].id != freshId
    ensures var r := CreateOrder(orders, user, req, freshId);
      && (r.reply.Ok? ==> GetOrderById(r.orders, freshId) == r.reply)
      && (r.reply.Err? ==> GetOrderById(r.orders, freshId) == Err(NotFound))
    ensures var r := UpdateOrderToPaid(orders, id, payload, now);
      r.reply.Ok? ==> GetOrderById(r.orders, id) == r.reply
    ensures var r := UpdateOrderToDelivered(orders, id, now);
      r.reply.Ok? ==> GetOrderById(r.orders, id) == r.reply
  {
    var created := CreateOrder(orders, user, req, freshId);
    if created.reply.Ok? {
      var r := FirstIndex(created.orders, HasId(freshId));
      assert HasId(freshId)(created.orders[|orders|]);
      assert forall j :: 0 <= j < |orders| ==> created.orders[j] == orders[j];
    }
    var paid := UpdateOrderToPaid(orders, id, payload, now);
    if paid.reply.Ok? {
      SameIndexAfterUpdate(orders, paid.orders, id, FirstIndex(orders, HasId(id)).value);
    }
    var delivered := UpdateOrderToDelivered(orders, id, now);
    if delivered.reply.Ok? {
      SameIndexAfterUpdate(orders, delivered.orders, id, FirstIndex(orders, HasId(id)).value);
    }
  }

  /** Exactly the user's orders are returned, in store order. */
  lemma UserOrdersExact(orders: seq<Order>, user: UserId, o: Order)
    ensures o in GetUserOrders(orders, user) <==> o in orders && o.user == user
  {
    var r := GetUserOrders(orders, user);
    if o in r {
      var k :| 0 <= k < |r| && r[k] == o;
    }
    if o in orders && o.user == user {
      var j :| 0 <= j < |orders| && orders[j] == o;
    }
  }

  /** The user's orders from two runs of the store are those of the first run
      followed by those of the second: the store order is kept. */
  lemma UserOrdersKeepOrder(a: seq<Order>, b: seq<Order>, user: UserId)
    ensures GetUserOrders(a + b, user) == GetUserOrders(a, user) + GetUserOrders(b, user)
  {
    FilterConcat(a, b, OwnedBy(user));
  }

  /** A created order is listed for its owner and for no one else. */
  lemma CreatedOrderListedForOwner(orders: seq<Order>, user: UserId, req: OrderRequest, freshId: OrderId, other: UserId)
    requires req.orderItems != Some([])
    requires other != user
    ensures var r := CreateOrder(orders, user, req, freshId);
      && GetUserOrders(r.orders, user) == GetUserOrders(orders, user) + [r.reply.value]
      && GetUserOrders(r.orders, other) == GetUserOrders(orders, other)
  {
    var r := CreateOrder(orders, user, req, freshId);
    UserOrdersKeepOrder(orders, [r.reply.value], user);
    UserOrdersKeepOrder(orders, [r.reply.value], other);
    assert [r.reply.value][1..] == [];
  }
}
