/** The order store (convex/orders.ts): inserts and patches of the orders table. */
module Orders {
  import opened Wrappers
  import opened Store
  import Users

  /** The statuses `updateStatus` accepts: every status but "pending" and "paid". */
  type UpdatableStatus = s: OrderStatus | s != Pending && s != Paid witness Failed

  /** The sum of price times quantity over the order lines. */
  function OrderTotal(items: seq<OrderItem>): int {
    if items == [] then 0 else OrderTotal(items[..|items| - 1]) + items[|items| - 1].price * items[|items| - 1].quantity
  }

  /** Inserts a pending order with the given lines and total, no session id yet, no Printful
      order and no shipping address. */
  method CreatePending(db: Database, userId: Id, items: seq<OrderItem>, totalAmount: int)
    returns (id: Id)
    requires db.Valid()
    modifies db`orders, db`nextOrderId
    ensures db.Valid()
    ensures id == old(db.nextOrderId) && id !in old(db.orders) && db.nextOrderId == id + 1
    ensures db.orders == old(db.orders)[id := Order(userId, "", None, Pending, items, totalAmount, None)]
  {
    id := db.nextOrderId;
    db.nextOrderId := db.nextOrderId + 1;
    db.orders := db.orders[id := Order(userId, "", None, Pending, items, totalAmount, None)];
  }

  /** Sets the order's Stripe session id and nothing else; patching a missing order throws. */
  method AttachStripeSession(db: Database, orderId: Id, stripeSessionId: string)
    returns (r: Outcome<Error>)
    requires db.Valid()
    modifies db`orders
    ensures db.Valid()
    ensures orderId in old(db.orders) ==>
              r == Pass
              && db.orders == old(db.orders)[orderId := old(db.orders)[orderId].(stripeSessionId := stripeSessionId)]
    ensures orderId !in old(db.orders) ==> r == Fail(DocumentNotFound(orderId)) && db.orders == old(db.orders)
  {
    if orderId !in db.orders {
      return Fail(DocumentNotFound(orderId));
    }
    db.orders := db.orders[orderId := db.orders[orderId].(stripeSessionId := stripeSessionId)];
    r := Pass;
  }

  /** Attaching the same session id twice leaves the order as one attachment does. */
  method AttachStripeSessionTwice(db: Database, orderId: Id, stripeSessionId: string)
    returns (first: Outcome<Error>, second: Outcome<Error>)
    requires db.Valid()
    modifies db`orders
    ensures db.Valid()
    ensures first == second
    ensures orderId in old(db.orders) ==>
              db.orders == old(db.orders)[orderId := old(db.orders)[orderId].(stripeSessionId := stripeSessionId)]
    ensures orderId !in old(db.orders) ==> db.orders == old(db.orders)
  {
    first := AttachStripeSession(db, orderId, stripeSessionId);
    ghost var once := db.orders;
    second := AttachStripeSession(db, orderId, stripeSessionId);
    assert db.orders == once;
  }

  /** The record markPaid writes: status "paid" and the address, whatever the status was. */
  function PaidOrder(o: Order, shippingAddress: Address): (o': Order)
    ensures o'.status == Paid && o'.shippingAddress == Some(shippingAddress)
    ensures o'.(status := o.status, shippingAddress := o.shippingAddress) == o
  {
    o.(status := Paid, shippingAddress := Some(shippingAddress))
  }

  /** Marks the order paid with its shipping address, unconditionally. */
  method MarkPaid(db: Database, orderId: Id, shippingAddress: Address) returns (r: Outcome<Error>)
    requires db.Valid()
    modifies db`orders
    ensures db.Valid()
    ensures orderId in old(db.orders) ==>
              r == Pass && db.orders == old(db.orders)[orderId := PaidOrder(old(db.orders)[orderId], shippingAddress)]
    ensures orderId !in old(db.orders) ==> r == Fail(DocumentNotFound(orderId)) && db.orders == old(db.orders)
  {
    if orderId !in db.orders {
      return Fail(DocumentNotFound(orderId));
    }
    db.orders := db.orders[orderId := PaidOrder(db.orders[orderId], shippingAddress)];
    r := Pass;
  }

  /** A second markPaid with the same address changes nothing. */
  lemma PaidOrderIdempotent(o: Order, a: Address)
    ensures PaidOrder(PaidOrder(o, a), a) == PaidOrder(o, a)
  {
  }

  /** The record updateStatus writes: the new status, and the Printful order id only when a
      non-empty one is passed. */
  function StatusUpdated(o: Order, status: UpdatableStatus, printfulOrderId: Option<string>)
    : (o': Order)
    ensures o'.status == status && o'.status != Pending && o'.status != Paid
    ensures o'.printfulOrderId == if printfulOrderId.Some? && printfulOrderId.value != ""
                                  then printfulOrderId else o.printfulOrderId
    ensures o'.(status := o.status, printfulOrderId := o.printfulOrderId) == o
  {
    var patched := o.(status := status);
    if printfulOrderId.Some? && printfulOrderId.value != "" then patched.(printfulOrderId := printfulOrderId)
    else patched
  }

  /** Sets a post-payment status and, when given a non-empty one, the Printful order id. */
  method UpdateStatus(db: Database, orderId: Id, status: UpdatableStatus,
                      printfulOrderId: Option<string>) returns (r: Outcome<Error>)
    requires db.Valid()
    modifies db`orders
    ensures db.Valid()
    ensures orderId in old(db.orders) ==>
              r == Pass
              && db.orders == old(db.orders)[orderId := StatusUpdated(old(db.orders)[orderId], status, printfulOrderId)]
    ensures orderId !in old(db.orders) ==> r == Fail(DocumentNotFound(orderId)) && db.orders == old(db.orders)
  {
    if orderId !in db.orders {
      return Fail(DocumentNotFound(orderId));
    }
    db.orders := db.orders[orderId := StatusUpdated(db.orders[orderId], status, printfulOrderId)];
    r := Pass;
  }

  /** getById and getByIdInternal: the order document, if any. */
  function GetById(db: Database, orderId: Id): (r: Option<Order>)
    reads db
    ensures r.Some? <==> orderId in db.orders
    ensures r.Some? ==> r.value == db.orders[orderId]
  {
    if orderId in db.orders then Some(db.orders[orderId]) else None
  }

  /** The caller's orders, newest first; none when not signed in or not a known user. */
  function GetMyOrders(db: Database, identity: Option<Identity>): (r: seq<Id>)
    reads db
    requires db.Valid()
    ensures Users.CurrentUser(db, identity).None? ==> r == []
    ensures forall i | 0 <= i < |r| ::
              r[i] in db.orders && Users.CurrentUser(db, identity) == Some(db.orders[r[i]].userId)
    ensures forall id | id in db.orders && Users.CurrentUser(db, identity) == Some(db.orders[id].userId) ::
              id in r
    ensures forall i, j | 0 <= i < j < |r| :: r[i] > r[j]
  {
    match Users.CurrentUser(db, identity)
    case None => []
    case Some(userId) => NewestFirst(db.orders, (o: Order) => o.userId == userId, db.nextOrderId)
  }

  /** The one order with this session id; none when there is none; `.unique()` throws when
      several share it (as pending orders without a session share ""). */
  function FindByStripeSession(db: Database, stripeSessionId: string)
    : (r: Result<Option<Id>, Error>)
    reads db
    requires db.Valid()
    ensures r == Ok(None) <==> forall id | id in db.orders :: db.orders[id].stripeSessionId != stripeSessionId
    ensures r.Ok? && r.value.Some? ==>
              && r.value.value in db.orders
              && db.orders[r.value.value].stripeSessionId == stripeSessionId
              && forall id | id in db.orders && db.orders[id].stripeSessionId == stripeSessionId ::
                   id == r.value.value
    ensures r.Err? <==> r == Err(NotUnique)
    ensures r.Err? <==> exists a, b | a in db.orders && b in db.orders ::
                          a != b && db.orders[a].stripeSessionId == stripeSessionId
                          && db.orders[b].stripeSessionId == stripeSessionId
  {
    var ids := NewestFirst(db.orders, (o: Order) => o.stripeSessionId == stripeSessionId, db.nextOrderId);
    if |ids| == 0 then Ok(None)
    else if |ids| == 1 then Ok(Some(ids[0]))
    else
      assert ids[0] in db.orders && ids[1] in db.orders && ids[0] != ids[1];
      Err(NotUnique)
  }
}
