/** Payment through Stripe (convex/stripe.ts): checkout turns the cart into a pending order and a
    Checkout Session; the completed-session webhook marks the order paid and starts fulfilment. */
module Stripe {
  import opened Wrappers
  import opened Store
  import Users
  import CartItems
  import Orders
  import Printful

  /** A Checkout line item: its name, images, unit amount in cents, and quantity. */
  datatype StripeLineItem = StripeLineItem(name: string, images: seq<string>, unitAmount: int,
                                           quantity: int)

  /** What checkout asks Stripe for: the line items, and the order id as session metadata. */
  datatype SessionRequest = SessionRequest(lineItems: seq<StripeLineItem>, convexOrderId: Id)

  /** Stripe's answer to the session request: a session with its id and (possibly null) URL, or
      a refusal. */
  datatype SessionReply = SessionFailed | Session(id: string, url: Option<string>)

  /** Every cart line still has its product (a line whose product is gone reads `product!` of
      null and throws). */
  predicate ProductsPresent(cart: seq<CartItems.CartLine>) {
    forall i | 0 <= i < |cart| :: cart[i].product.Some?
  }

  /** The Checkout line item of a cart line: "title (size)", the product image when it has a
      non-empty URL, the product's price, the line's quantity. */
  function LineItemOf(line: CartItems.CartLine): StripeLineItem
    requires line.product.Some?
  {
    var images := if line.imageUrl.Some? && line.imageUrl.value != "" then [line.imageUrl.value] else [];
    StripeLineItem(line.product.value.title + " (" + line.item.size + ")", images,
                   line.product.value.price, line.item.quantity)
  }

  /** The order line a cart line is snapshotted as. */
  function OrderItemOf(line: CartItems.CartLine): OrderItem
    requires line.product.Some?
  {
    OrderItem(line.item.productId, line.product.value.title, line.item.size, line.item.quantity,
              line.product.value.price)
  }

  /** The session's line items, one per cart line, in cart order. */
  function LineItems(cart: seq<CartItems.CartLine>): (r: seq<StripeLineItem>)
    requires ProductsPresent(cart)
    ensures |r| == |cart|
    ensures forall i | 0 <= i < |cart| :: r[i] == LineItemOf(cart[i])
  {
    seq(|cart|, i requires 0 <= i < |cart| && cart[i].product.Some? => LineItemOf(cart[i]))
  }

  /** The pending order's lines, one per cart line, in cart order. */
  function OrderItems(cart: seq<CartItems.CartLine>): (r: seq<OrderItem>)
    requires ProductsPresent(cart)
    ensures |r| == |cart|
    ensures forall i | 0 <= i < |cart| :: r[i] == OrderItemOf(cart[i])
  {
    seq(|cart|, i requires 0 <= i < |cart| && cart[i].product.Some? => OrderItemOf(cart[i]))
  }

  /** The order total: price times quantity summed left to right over the cart. */
  function Total(cart: seq<CartItems.CartLine>): (r: int)
    requires ProductsPresent(cart)
    ensures cart == [] ==> r == 0
    ensures (forall i | 0 <= i < |cart| :: cart[i].product.value.price >= 0 && cart[i].item.quantity >= 0) ==>
              r >= 0
  {
    if cart == [] then 0
    else
      var last := cart[|cart| - 1];
      Total(cart[..|cart| - 1]) + last.product.value.price * last.item.quantity
  }

  /** What Stripe charges for the line items: unit amount times quantity, summed. */
  function AmountDue(lineItems: seq<StripeLineItem>): int {
    if lineItems == [] then 0
    else
      var last := lineItems[|lineItems| - 1];
      AmountDue(lineItems[..|lineItems| - 1]) + last.unitAmount * last.quantity
  }

  /** The order's recorded total is what Stripe charges for the session's line items. */
  lemma {:induction false} TotalIsAmountDue(cart: seq<CartItems.CartLine>)
    requires ProductsPresent(cart)
    ensures Total(cart) == AmountDue(LineItems(cart))
    decreases |cart|
  {
    if cart != [] {
      var front := cart[..|cart| - 1];
      assert LineItems(cart)[..|cart| - 1] == LineItems(front);
      TotalIsAmountDue(front);
    }
  }

  /** The order's recorded total is the total of its own lines. */
  lemma {:induction false} TotalIsOrderTotal(cart: seq<CartItems.CartLine>)
    requires ProductsPresent(cart)
    ensures Total(cart) == Orders.OrderTotal(OrderItems(cart))
    decreases |cart|
  {
    if cart != [] {
      var front := cart[..|cart| - 1];
      assert OrderItems(cart)[..|cart| - 1] == OrderItems(front);
      TotalIsOrderTotal(front);
    }
  }

  /** The part of checkout after the checks: inserts the pending order snapshotting the cart,
      requests the session carrying its id, and attaches the session id. */
  method OpenSession(db: Database, userId: Id, cart: seq<CartItems.CartLine>, stripe: SessionReply)
    returns (r: Result<Option<string>, Error>, request: SessionRequest)
    requires db.Valid()
    requires ProductsPresent(cart)
    modifies db`orders, db`nextOrderId
    ensures db.Valid()
    ensures request == SessionRequest(LineItems(cart), old(db.nextOrderId))
    ensures db.nextOrderId == old(db.nextOrderId) + 1
    ensures db.orders == old(db.orders)[old(db.nextOrderId) := Order(userId, if stripe.Session? then stripe.id else "",
                                                                None, Pending, OrderItems(cart), Total(cart), None)]
    ensures r == if stripe.Session? then Ok(stripe.url) else Err(StripeFailure)
  {
    var orderId := Orders.CreatePending(db, userId, OrderItems(cart), Total(cart));
    request := SessionRequest(LineItems(cart), orderId);
    if stripe.SessionFailed? {
      return Err(StripeFailure), request;
    }
    var attached := Orders.AttachStripeSession(db, orderId, stripe.id);
    r := Ok(stripe.url);
  }

  /**
    createCheckoutSession: checks the caller, reads their cart, refuses an empty cart or one
    with a vanished product, inserts the pending order, asks Stripe for a session carrying the
    order id, attaches the session id to the order, and returns the session URL. `stripe` is
    Stripe's answer to the session request; when it refuses, the order stays pending without
    a session id.
   */
  method CreateCheckoutSession(db: Database, identity: Option<Identity>, stripe: SessionReply)
    returns (r: Result<Option<string>, Error>, request: Option<SessionRequest>)
    requires db.Valid()
    modifies db`orders, db`nextOrderId
    ensures db.Valid()
    ensures identity.None? ==> r == Err(NotAuthenticated)
    ensures identity.Some? && old(Users.CurrentUser(db, identity)).None? ==> r == Err(UserNotFound)
    ensures old(Users.CurrentUser(db, identity)).Some? ==>
              var cart := old(CartItems.CartOf(db, Users.CurrentUser(db, identity).value));
              && (cart == [] ==> r == Err(CartIsEmpty))
              && (cart != [] && !ProductsPresent(cart) ==> r == Err(MissingProduct))
              && (cart != [] && ProductsPresent(cart) ==> request.Some?)
    // the checks come before any write and any request to Stripe
    ensures request.None? ==> r.Err? && db.orders == old(db.orders) && db.nextOrderId == old(db.nextOrderId)
    // otherwise one pending order snapshots the cart, and the session carries its id
    ensures request.Some? ==> old(Users.CurrentUser(db, identity)).Some?
    ensures request.Some? ==>
              var userId := old(Users.CurrentUser(db, identity)).value;
              var cart := old(CartItems.CartOf(db, userId));
              var id := old(db.nextOrderId);
              && cart != [] && ProductsPresent(cart)
              && request == Some(SessionRequest(LineItems(cart), id))
              && db.nextOrderId == id + 1
              && db.orders == old(db.orders)[id := Order(userId, if stripe.Session? then stripe.id else "",
                                                         None, Pending, OrderItems(cart), Total(cart), None)]
              && r == if stripe.Session? then Ok(stripe.url) else Err(StripeFailure)
  {
    if identity.None? {
      return Err(NotAuthenticated), None;
    }
    var user := Users.CurrentUser(db, identity);
    if user.None? {
      return Err(UserNotFound), None;
    }
    var cart := CartItems.CartOf(db, user.value);
    if cart == [] {
      return Err(CartIsEmpty), None;
    }
    if !ProductsPresent(cart) {
      return Err(MissingProduct), None;
    }
    var sent;
    r, sent := OpenSession(db, user.value, cart, stripe);
    request := Some(sent);
  }

  /** The postal part of the shipping details a completed session collected. */
  datatype PostalAddress = PostalAddress(line1: Option<string>, line2: Option<string>,
                                         city: Option<string>, state: Option<string>,
                                         country: Option<string>, postalCode: Option<string>)

  /** The shipping details a completed session collected. */
  datatype ShippingDetails = ShippingDetails(name: Option<string>, address: Option<PostalAddress>)

  /** A verified Stripe event: its type, the order id in the session's metadata (none when absent
      or empty), and the collected shipping details. */
  datatype StripeEvent = StripeEvent(eventType: string, convexOrderId: Option<Id>,
                                     shipping: Option<ShippingDetails>)

  /** The address markPaid records: every missing field becomes "", except the second line,
      which stays absent. */
  function ShippingAddress(shipping: Option<ShippingDetails>): (a: Address)
    ensures shipping.None? ==> a == Address("", "", None, "", "", "", "")
    ensures shipping.Some? && shipping.value.address.None? ==>
              a == Address(shipping.value.name.GetOr(""), "", None, "", "", "", "")
    ensures shipping.Some? && shipping.value.address.Some? ==>
              var p := shipping.value.address.value;
              a == Address(shipping.value.name.GetOr(""), p.line1.GetOr(""), p.line2, p.city.GetOr(""),
                           p.state.GetOr(""), p.country.GetOr(""), p.postalCode.GetOr(""))
  {
    var name := if shipping.Some? then shipping.value.name.GetOr("") else "";
    var postal := if shipping.Some? then shipping.value.address else None;
    if postal.None? then Address(name, "", None, "", "", "", "")
    else
      var p := postal.value;
      Address(name, p.line1.GetOr(""), p.line2, p.city.GetOr(""), p.state.GetOr(""),
              p.country.GetOr(""), p.postalCode.GetOr(""))
  }

  /** The event type that triggers fulfilment. */
  const CHECKOUT_COMPLETED: string := "checkout.session.completed"

  /** What a completed checkout for order `id` does to the tables `t` it found, given the
      products and files it reads: a missing order raises and nothing is written; otherwise the
      order is marked paid with `address`, and an unprintable line then raises and leaves it
      paid with no draft requested; else the draft is requested whatever the order's earlier
      status, and the draft creation finishes on the paid order as AfterDraft says. */
  predicate CheckoutFulfilledAs(id: Id, address: Address, t: Printful.Tables, products: map<Id, Product>,
                                files: map<Id, string>, reply: Printful.HttpReply, createdId: Option<string>,
                                schedulerOk: bool, r: Outcome<Error>, call: Option<Printful.GatewayCall>,
                                t': Printful.Tables)
  {
    if id !in t.orders then r == Fail(DocumentNotFound(id)) && call.None? && t' == t
    else
      var paid := t.orders[id := Orders.PaidOrder(t.orders[id], address)];
      var lines := Printful.LineItems(paid[id].items, products, files);
      if lines.Err? then r == Fail(lines.error) && call.None? && t' == Printful.Tables(paid, t.scheduled)
      else
        && r == Pass
        && call == Some(Printful.CreateDraft(Printful.DraftRequest(address, lines.value)))
        && t' == Printful.AfterDraft(Printful.Tables(paid, t.scheduled), id, Printful.PrintfulFetch(reply).Ok?,
                                     createdId, schedulerOk)
  }

  /** What fulfillOrder does with the event the signature check gave (none when it rejected):
      a rejected signature raises, an event other than a completed checkout naming an order is
      ignored, both writing nothing; a completed checkout is fulfilled as CheckoutFulfilledAs
      says. */
  predicate FulfilledAs(event: Option<StripeEvent>, t: Printful.Tables, products: map<Id, Product>,
                        files: map<Id, string>, reply: Printful.HttpReply, createdId: Option<string>,
                        schedulerOk: bool, r: Outcome<Error>, call: Option<Printful.GatewayCall>,
                        t': Printful.Tables)
  {
    if event.None? then r == Fail(InvalidSignature) && call.None? && t' == t
    else if event.value.eventType != CHECKOUT_COMPLETED || event.value.convexOrderId.None? then
      r == Pass && call.None? && t' == t
    else
      CheckoutFulfilledAs(event.value.convexOrderId.value, ShippingAddress(event.value.shipping), t,
                          products, files, reply, createdId, schedulerOk, r, call, t')
  }

  /**
    fulfillOrder: verifies the payload against the signature, ignores every event but a
    completed checkout that names an order, then marks that order paid with the collected
    address and runs the Printful draft creation. `constructEvent` is Stripe's signature check
    (none when it rejects); `reply`, `createdId` and `schedulerOk` are handed to the draft
    creation.
   */
  method FulfillOrder(db: Database, signature: string, payload: string,
                      constructEvent: (string, string) -> Option<StripeEvent>,
                      reply: Printful.HttpReply, createdId: Option<string>, schedulerOk: bool)
    returns (r: Outcome<Error>, call: Option<Printful.GatewayCall>)
    requires db.Valid()
    modifies db`orders, db`scheduled
    ensures db.Valid()
    ensures FulfilledAs(constructEvent(payload, signature), Printful.Tables(old(db.orders), old(db.scheduled)),
                        old(db.products), old(db.files), reply, createdId, schedulerOk, r, call,
                        Printful.Tables(db.orders, db.scheduled))
  {
    var event := constructEvent(payload, signature);
    if event.None? {
      return Fail(InvalidSignature), None;
    }
    if event.value.eventType != CHECKOUT_COMPLETED || event.value.convexOrderId.None? {
      return Pass, None;
    }
    r, call := FulfillCheckout(db, event.value.convexOrderId.value, ShippingAddress(event.value.shipping),
                               reply, createdId, schedulerOk);
  }

  /** A completed checkout for order `id`: the order is marked paid with `address`, then the
      Printful draft creation runs on it. */
  method FulfillCheckout(db: Database, id: Id, address: Address, reply: Printful.HttpReply,
                         createdId: Option<string>, schedulerOk: bool)
    returns (r: Outcome<Error>, call: Option<Printful.GatewayCall>)
    requires db.Valid()
    modifies db`orders, db`scheduled
    ensures db.Valid()
    ensures CheckoutFulfilledAs(id, address, Printful.Tables(old(db.orders), old(db.scheduled)),
                                old(db.products), old(db.files), reply, createdId, schedulerOk, r, call,
                                Printful.Tables(db.orders, db.scheduled))
  {
    r := Orders.MarkPaid(db, id, address);
    if r.Fail? {
      return r, None;
    }
    r, call := Printful.CreateOrder(db, id, reply, createdId, schedulerOk);
  }

  /** A completed-checkout event delivered twice (Stripe retries deliveries) requests a second
      draft: nothing records that the first delivery was handled. */
  method RedeliveredCheckout(db: Database, signature: string, payload: string,
                             constructEvent: (string, string) -> Option<StripeEvent>,
                             createdId: string)
    returns (first: Option<Printful.GatewayCall>, second: Option<Printful.GatewayCall>)
    requires db.Valid()
    requires constructEvent(payload, signature).Some?
    requires constructEvent(payload, signature).value.eventType == CHECKOUT_COMPLETED
    requires constructEvent(payload, signature).value.convexOrderId.Some?
    requires constructEvent(payload, signature).value.convexOrderId.value in db.orders
    requires var id := constructEvent(payload, signature).value.convexOrderId.value;
             Printful.LineItems(db.orders[id].items, db.products, db.files).Ok?
    modifies db`orders, db`scheduled
    ensures db.Valid()
    ensures first.Some? && first.value.CreateDraft? && first == second
    ensures |db.scheduled| == |old(db.scheduled)| + 2
  {
    var reply := Printful.Reply(200, "{}", true);
    var r1, r2;
    r1, first := FulfillOrder(db, signature, payload, constructEvent, reply, Some(createdId), true);
    r2, second := FulfillOrder(db, signature, payload, constructEvent, reply, Some(createdId), true);
  }
}
