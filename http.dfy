/** The HTTP routes (convex/http.ts): the Stripe and Printful webhook endpoints and the status
    code each returns. */
module Http {
  import opened Wrappers
  import opened Store
  import Stripe
  import Printful

  /**
    POST /stripe/webhook: without a (non-empty) `stripe-signature` header answers 400 and runs
    nothing; otherwise hands the header and the raw payload to fulfillOrder and answers 200 when
    it completes, 400 when it throws. `fulfilled` is fulfillOrder's outcome, none when it is
    not run.
   */
  method StripeWebhook(db: Database, signatureHeader: Option<string>, payload: string,
                       constructEvent: (string, string) -> Option<Stripe.StripeEvent>,
                       reply: Printful.HttpReply, createdId: Option<string>, schedulerOk: bool)
    returns (status: int, fulfilled: Option<Outcome<Error>>, call: Option<Printful.GatewayCall>)
    requires db.Valid()
    modifies db`orders, db`scheduled
    ensures db.Valid()
    ensures fulfilled.None? <==> signatureHeader.None? || signatureHeader == Some("")
    ensures fulfilled.None? ==>
              status == 400 && call.None? && db.orders == old(db.orders) && db.scheduled == old(db.scheduled)
    ensures fulfilled.Some? ==> (status == 200 <==> fulfilled.value == Pass)
    // a present header and the raw payload are handed to fulfillOrder, whose outcome and writes
    // are the route's
    ensures fulfilled.Some? ==>
              Stripe.FulfilledAs(constructEvent(payload, signatureHeader.value),
                                 Printful.Tables(old(db.orders), old(db.scheduled)), old(db.products),
                                 old(db.files), reply, createdId, schedulerOk, fulfilled.value, call,
                                 Printful.Tables(db.orders, db.scheduled))
    ensures fulfilled.Some? ==> (status == 400 <==> fulfilled.value.Fail?)
    // the signature and the payload reach the signature check unchanged
    ensures fulfilled == Some(Fail(InvalidSignature)) <==>
              signatureHeader.Some? && signatureHeader.value != ""
              && constructEvent(payload, signatureHeader.value).None?
  {
    if signatureHeader.None? || signatureHeader.value == "" {
      return 400, None, None;
    }
    var outcome;
    outcome, call := Stripe.FulfillOrder(db, signatureHeader.value, payload, constructEvent,
                                         reply, createdId, schedulerOk);
    fulfilled := Some(outcome);
    status := if outcome == Pass then 200 else 400;
  }

  /** A Printful webhook request body: not JSON, the JSON `null`, or an event. */
  datatype JsonBody = Malformed | JsonNull | JsonEvent(event: Printful.PrintfulEvent)

  /** The answer of POST /printful/webhook: its status and what handleWebhook logged. */
  datatype WebhookResponse = WebhookResponse(status: int, log: Printful.WebhookLog)

  /** POST /printful/webhook: parses the body and hands it to handleWebhook with no `catch`, so
      a body that is not JSON, or a `null` event, makes the route throw; otherwise it answers
      200, whatever the event. */
  function PrintfulWebhook(body: JsonBody): (r: Result<WebhookResponse, Error>)
    ensures r.Ok? <==> body.JsonEvent?
    ensures r.Ok? ==> r.value.status == 200 && r.value.log == Printful.HandleWebhook(body.event)
    ensures body.Malformed? ==> r == Err(MalformedJson)
    ensures body.JsonNull? ==> r == Err(NullEvent)
  {
    match body
    case Malformed => Err(MalformedJson)
    case JsonNull => Err(NullEvent)
    case JsonEvent(event) => Ok(WebhookResponse(200, Printful.HandleWebhook(event)))
  }
}
