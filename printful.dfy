/** Fulfilment through Printful (convex/printful.ts): a draft order is created for a paid order
    and confirmed a day later unless the order has been refunded or has failed meanwhile. */
module Printful {
  import opened Wrappers
  import opened Store
  import Orders

  /** Bella+Canvas 3001 in black: the Printful variant of each shirt size. */
  const VARIANT_IDS: map<string, int> :=
    map["XS" := 9527, "S" := 4016, "M" := 4017, "L" := 4018, "XL" := 4019, "2XL" := 4020,
        "3XL" := 5295]

  /** The hold between creating a draft and confirming it: 24 hours, in milliseconds. */
  const CONFIRM_DELAY_MS: int := 24 * 60 * 60 * 1000

  /** What the Printful API answered: an HTTP status, the body, and whether that body parses as
      JSON; or no answer at all. */
  datatype HttpReply = NetworkError | Reply(status: int, body: string, json: bool)

  /** One line of a draft: the variant, how many, and the front print file's URL. */
  datatype LineItem = LineItem(variantId: int, quantity: int, frontFileUrl: Option<string>)

  /** The body of the draft-creation request. */
  datatype DraftRequest = DraftRequest(recipient: Address, items: seq<LineItem>)

  /** A request sent to Printful. */
  datatype GatewayCall =
    | CreateDraft(request: DraftRequest)
    | ConfirmDraft(printfulOrderId: string)
    | CancelDraft(printfulOrderId: string)

  /** printfulFetch: a 2xx answer yields its body parsed as JSON, and raises when the body is not
      JSON; any other status raises an error carrying the status and the body; a failed `fetch`
      raises too. */
  function PrintfulFetch(reply: HttpReply): (r: Result<string, Error>)
    ensures r.Ok? <==> reply.Reply? && 200 <= reply.status <= 299 && reply.json
    ensures r.Ok? ==> r.value == reply.body
    ensures reply.Reply? && !(200 <= reply.status <= 299) ==>
              r == Err(PrintfulApiError(reply.status, reply.body))
    ensures reply.Reply? && 200 <= reply.status <= 299 && !reply.json ==> r == Err(MalformedJson)
    ensures reply.NetworkError? ==> r == Err(NetworkFailure)
  {
    match reply
    case NetworkError => Err(NetworkFailure)
    case Reply(status, body, json) =>
      if !(200 <= status <= 299) then Err(PrintfulApiError(status, body))
      else if !json then Err(MalformedJson)
      else Ok(body)
  }

  /** An order line can be printed: its product exists and its size has a variant. */
  predicate Printable(item: OrderItem, products: map<Id, Product>) {
    item.productId in products && item.size in VARIANT_IDS
  }

  /** The error an unprintable line raises: a missing product is reported before the size. */
  function LineError(item: OrderItem, products: map<Id, Product>): Error {
    if item.productId !in products then ProductNotFound(item.productId) else UnknownSize(item.size)
  }

  /** The draft's line items, one per order line, or the error of the first line that cannot be
      printed. */
  function LineItems(items: seq<OrderItem>, products: map<Id, Product>, files: map<Id, string>)
    : (r: Result<seq<LineItem>, Error>)
    ensures r.Ok? <==> forall i | 0 <= i < |items| :: Printable(items[i], products)
    ensures r.Ok? ==>
              && |r.value| == |items|
              && forall i | 0 <= i < |items| ::
                   r.value[i] == LineItem(VARIANT_IDS[items[i].size], items[i].quantity,
                                          ProductImage(files, products[items[i].productId]))
    ensures r.Err? ==>
              exists i | 0 <= i < |items| ::
                && !Printable(items[i], products)
                && r.error == LineError(items[i], products)
                && forall j | 0 <= j < i :: Printable(items[j], products)
  {
    if items == [] then Ok([])
    else
      var item := items[0];
      if item.productId !in products then Err(ProductNotFound(item.productId))
      else if item.size !in VARIANT_IDS then Err(UnknownSize(item.size))
      else
        match LineItems(items[1..], products, files)
        case Err(e) =>
          assert forall i | 1 <= i <= |items[1..]| :: items[1..][i - 1] == items[i];
          Err(e)
        case Ok(rest) =>
          Ok([LineItem(VARIANT_IDS[item.size], item.quantity,
                       ProductImage(files, products[item.productId]))] + rest)
  }

  /**
    createOrder: reads the order, builds the draft's lines, sends the draft, marks the order
    "fulfilling" with the draft's id and schedules the confirmation. A missing order or address
    and an unprintable line raise before anything is sent; a failure after the draft is sent
    (an error answer, an answer without `result`, a scheduler failure) marks the order "failed".
    `reply` is Printful's answer to the draft, `createdId` the id in a 2xx answer's `result`
    (none when the body has no `result`), and `schedulerOk` whether the scheduler accepted the
    job.
   */
  method CreateOrder(db: Database, orderId: Id, reply: HttpReply, createdId: Option<string>,
                     schedulerOk: bool) returns (r: Outcome<Error>, call: Option<GatewayCall>)
    requires db.Valid()
    modifies db`orders, db`scheduled
    ensures db.Valid()
    ensures orderId !in old(db.orders) || old(db.orders)[orderId].shippingAddress.None? ==>
              r == Fail(OrderOrAddressNotFound)
    ensures orderId in old(db.orders) && old(db.orders)[orderId].shippingAddress.Some? ==>
              var o := old(db.orders)[orderId];
              var lines := LineItems(o.items, old(db.products), old(db.files));
              && (lines.Err? ==> r == Fail(lines.error))
              && (lines.Ok? ==> r == Pass && call == Some(CreateDraft(DraftRequest(o.shippingAddress.value, lines.value))))
    // nothing is sent and nothing is written unless the draft request is built
    ensures r.Fail? ==> call.None? && db.orders == old(db.orders) && db.scheduled == old(db.scheduled)
    // once the draft is sent, what is written depends only on Printful's answer and the scheduler
    ensures r == Pass ==>
              Tables(db.orders, db.scheduled)
              == AfterDraft(Tables(old(db.orders), old(db.scheduled)), orderId, PrintfulFetch(reply).Ok?,
                            createdId, schedulerOk)
  {
    var order := Orders.GetById(db, orderId);
    if order.None? || order.value.shippingAddress.None? {
      return Fail(OrderOrAddressNotFound), None;
    }
    var lines := LineItems(order.value.items, db.products, db.files);
    if lines.Err? {
      return Fail(lines.error), None;
    }
    call := Some(CreateDraft(DraftRequest(order.value.shippingAddress.value, lines.value)));
    r := Pass;
    RecordDraft(db, orderId, PrintfulFetch(reply).Ok?, createdId, schedulerOk);
  }

  /** The two tables createOrder and confirmOrder write: the orders and the scheduler's queue. */
  datatype Tables = Tables(orders: map<Id, Order>, scheduled: seq<Job>)

  /** What createOrder leaves once the draft is sent, from the tables `t` it found. `accepted` is
      whether printfulFetch returned, `createdId` the id in its `result`. Only the order
      `orderId` changes, and only in its status and Printful id: it ends "fulfilling" with one
      confirmation queued exactly when the draft was accepted with an id and the scheduler took
      the job, and "failed" with the queue unchanged otherwise. */
  function AfterDraft(t: Tables, orderId: Id, accepted: bool, createdId: Option<string>,
                      schedulerOk: bool): (t': Tables)
    requires orderId in t.orders
    ensures t'.orders.Keys == t.orders.Keys
    ensures forall id | id in t.orders && id != orderId :: t'.orders[id] == t.orders[id]
    ensures t'.orders[orderId].(status := t.orders[orderId].status,
                                printfulOrderId := t.orders[orderId].printfulOrderId) == t.orders[orderId]
    ensures t'.orders[orderId].status == if accepted && createdId.Some? && schedulerOk then Fulfilling else Failed
    // the id is recorded even when the scheduler then refuses the job
    ensures t'.orders[orderId].printfulOrderId ==
              if accepted && createdId.Some? && createdId.value != "" then createdId
              else t.orders[orderId].printfulOrderId
    ensures t'.orders[orderId].status == Fulfilling ==>
              t'.scheduled == t.scheduled + [ConfirmOrderJob(CONFIRM_DELAY_MS, orderId, createdId.value)]
    ensures t'.orders[orderId].status == Failed ==> t'.scheduled == t.scheduled
  {
    var o := t.orders[orderId];
    if !accepted || createdId.None? then
      Tables(t.orders[orderId := Orders.StatusUpdated(o, Failed, None)], t.scheduled)
    else
      var fulfilling := Orders.StatusUpdated(o, Fulfilling, createdId);
      if schedulerOk then
        Tables(t.orders[orderId := fulfilling],
               t.scheduled + [ConfirmOrderJob(CONFIRM_DELAY_MS, orderId, createdId.value)])
      else
        Tables(t.orders[orderId := Orders.StatusUpdated(fulfilling, Failed, None)], t.scheduled)
  }

  /** What createOrder writes once the draft is sent: the order "fulfilling" with the draft's id,
      then the confirmation queued; an error answer or a missing id mark it "failed" instead, and
      a scheduler failure marks the now "fulfilling" order "failed". */
  method RecordDraft(db: Database, orderId: Id, accepted: bool, createdId: Option<string>, schedulerOk: bool)
    requires db.Valid() && orderId in db.orders
    modifies db`orders, db`scheduled
    ensures db.Valid()
    ensures Tables(db.orders, db.scheduled)
            == AfterDraft(Tables(old(db.orders), old(db.scheduled)), orderId, accepted, createdId, schedulerOk)
  {
    if !accepted || createdId.None? {
      var failed := Orders.UpdateStatus(db, orderId, Failed, None);
      return;
    }
    var fulfilling := Orders.UpdateStatus(db, orderId, Fulfilling, createdId);
    if schedulerOk {
      db.scheduled := db.scheduled + [ConfirmOrderJob(CONFIRM_DELAY_MS, orderId, createdId.value)];
    } else {
      var failed := Orders.UpdateStatus(db, orderId, Failed, None);
    }
  }

  /** Whether confirmOrder cancels rather than confirms: the order was refunded or has failed. */
  predicate Cancels(status: OrderStatus) {
    status == Refunded || status == Failed
  }

  /** What confirmOrder does to the orders `orders` it found, sending `call`: nothing for a
      missing order; a cancellation of a refunded or failed order's draft, writing nothing;
      otherwise a confirmation, after which the order is marked "failed" exactly when
      printfulFetch raises and everything else is left as it was. */
  predicate ConfirmedAs(orders: map<Id, Order>, orderId: Id, printfulOrderId: string, reply: HttpReply,
                        call: Option<GatewayCall>, orders': map<Id, Order>)
  {
    if orderId !in orders then call.None? && orders' == orders
    else if Cancels(orders[orderId].status) then call == Some(CancelDraft(printfulOrderId)) && orders' == orders
    else
      && call == Some(ConfirmDraft(printfulOrderId))
      && orders' == if PrintfulFetch(reply).Ok? then orders
                    else orders[orderId := Orders.StatusUpdated(orders[orderId], Failed, None)]
  }

  /**
    confirmOrder: re-reads the order; does nothing when it is gone; cancels the draft of a
    refunded or failed order (ignoring the answer) and writes nothing; otherwise confirms the
    draft, and marks the order "failed" when the confirmation is refused. `reply` is Printful's
    answer to the request sent.
   */
  method ConfirmOrder(db: Database, orderId: Id, printfulOrderId: string, reply: HttpReply)
    returns (call: Option<GatewayCall>)
    requires db.Valid()
    modifies db`orders
    ensures db.Valid()
    ensures ConfirmedAs(old(db.orders), orderId, printfulOrderId, reply, call, db.orders)
  {
    var order := Orders.GetById(db, orderId);
    if order.None? {
      return None;
    }
    if Cancels(order.value.status) {
      var cancelled := PrintfulFetch(reply);
      return Some(CancelDraft(printfulOrderId));
    }
    call := Some(ConfirmDraft(printfulOrderId));
    var confirmed := PrintfulFetch(reply);
    if confirmed.Err? {
      var failed := Orders.UpdateStatus(db, orderId, Failed, None);
    }
  }

  /** The scheduler runs the oldest queued confirmation (every job has the same delay, so the
      oldest is the first due) and drops it from the queue. */
  method RunNextJob(db: Database, reply: HttpReply) returns (call: Option<GatewayCall>)
    requires db.Valid()
    modifies db`orders, db`scheduled
    ensures db.Valid()
    ensures old(db.scheduled) == [] ==> call.None? && db.orders == old(db.orders) && db.scheduled == []
    ensures old(db.scheduled) != [] ==>
              var job := old(db.scheduled)[0];
              && db.scheduled == old(db.scheduled)[1..]
              && ConfirmedAs(old(db.orders), job.orderId, job.printfulOrderId, reply, call, db.orders)
  {
    if db.scheduled == [] {
      return None;
    }
    var job := db.scheduled[0];
    db.scheduled := db.scheduled[1..];
    call := ConfirmOrder(db, job.orderId, job.printfulOrderId, reply);
  }

  /** A Printful webhook event: its type and `data.order.id` as text, none when absent. */
  datatype PrintfulEvent = PrintfulEvent(eventType: string, orderId: Option<string>)

  /** What handleWebhook does with an event: nothing, or log it as shipped, failed or other. */
  datatype WebhookLog = Ignored | ShippedLog(id: string) | FailedLog(id: string) | OtherLog(id: string)

  /** `String(event.data?.order?.id)`: an absent id becomes the text "undefined". */
  function OrderIdText(orderId: Option<string>): string {
    if orderId.Some? then orderId.value else "undefined"
  }

  /** handleWebhook reads and writes no table: it only logs. Only an empty id is ignored, since
      an absent one reads as "undefined". */
  function HandleWebhook(event: PrintfulEvent): (r: WebhookLog)
    ensures r.Ignored? <==> event.orderId == Some("")
    ensures !r.Ignored? ==> r.id == OrderIdText(event.orderId) && r.id != ""
    ensures r.ShippedLog? <==> !r.Ignored? && event.eventType == "package_shipped"
    ensures r.FailedLog? <==> !r.Ignored? && event.eventType == "order_failed"
  {
    var id := OrderIdText(event.orderId);
    if id == "" then Ignored
    else if event.eventType == "package_shipped" then ShippedLog(id)
    else if event.eventType == "order_failed" then FailedLog(id)
    else OtherLog(id)
  }
}
