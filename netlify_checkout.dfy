/** The serverless create-checkout-session handler: the HTTP method check
    and body parsing in front of the session logic it shares with the Express
    route (module CheckoutSession). */
module NetlifyCheckout {
  import opened Base
  import opened CheckoutSession

  const MethodNotAllowed := "Method Not Allowed"

  /** The raw event body: absent, JSON that parses to a payload, or a body
      whose parsing or destructuring throws with a message (text JSON.parse
      rejects, or JSON such as `null` that cannot be destructured). */
  datatype EventBody = NoBody | Parsed(payload: Payload) | Malformed(parseError: string)

  /** `JSON.parse('{}')`: no items, no title, no price. */
  function EmptyPayload(): Payload {
    Payload(None, "", None, "", "")
  }

  /** exports.handler.  `lookups` are the price ids retrieved and `sent` the
      request handed to session creation, if any. */
  method Handler(httpMethod: string, body: EventBody, prices: string -> PriceLookup, create: Creation)
    returns (resp: Response, lookups: seq<string>, sent: Option<SessionRequest>)
    ensures httpMethod != "POST" ==>
      resp == Response(405, TextReply(MethodNotAllowed)) && lookups == [] && sent.None?
    ensures httpMethod == "POST" && body.Malformed? ==>
      resp == Response(500, ErrorReply(ThrownMessage(body.parseError))) && lookups == [] && sent.None?
    ensures httpMethod == "POST" && body.NoBody? ==>
      resp == Response(400, ErrorReply(InvalidSinglePayloadError)) && lookups == [] && sent.None?
    ensures httpMethod == "POST" ==> resp.status in {200, 400, 500}
    ensures NoDuplicates(lookups)
    ensures httpMethod == "POST" && body.Parsed? ==> sent == Planned(body.payload, prices)
    ensures resp.status == 200 <==> sent.Some? && create.Created?
    ensures resp.status == 200 ==>
      resp.reply == SessionReply(create.url, create.id, sent.value.subtotal,
                                 sent.value.subtotal >= FreeShippingThreshold)
    ensures httpMethod == "POST" && body.Parsed? && CartFlow(body.payload) &&
            HasMissingPrice(NormalizeAll(body.payload.items.value)) ==>
      resp == Response(400, ErrorReply(MissingPriceError)) && lookups == [] && sent.None?
    ensures httpMethod == "POST" && body.Parsed? && !CartFlow(body.payload) &&
            (body.payload.title == "" || body.payload.price.None?) ==>
      resp == Response(400, ErrorReply(InvalidSinglePayloadError)) && lookups == [] && sent.None?
    ensures httpMethod == "POST" && body.Parsed? && CartFlow(body.payload) &&
            !HasMissingPrice(NormalizeAll(body.payload.items.value)) ==>
      var pids := Unique(PricesOf(NormalizeAll(body.payload.items.value)));
      forall k :: FirstUnpriced(pids, prices, k) ==>
        && lookups == pids[..k + 1] && sent.None?
        && resp == (if prices(pids[k]).LookupThrows? then Response(500, ErrorReply(ThrownMessage(prices(pids[k]).message)))
                    else Response(400, ErrorReply(InvalidPricePrefix + pids[k])))
    ensures sent.Some? && create.CreateThrows? ==> resp == Response(500, ErrorReply(ThrownMessage(create.message)))
    ensures resp.status == 500 ==> resp.reply.ErrorReply? && resp.reply.error != ""
  {
    if httpMethod != "POST" {
      return Response(405, TextReply(MethodNotAllowed)), [], None;
    }
    var payload;
    match body {
      case Malformed(error) =>
        return Response(500, ErrorReply(ThrownMessage(error))), [], None;
      case NoBody =>
        payload := EmptyPayload();
      case Parsed(p) =>
        payload := p;
    }
    resp, lookups, sent := CreateSession(payload, prices, create);
  }
}
