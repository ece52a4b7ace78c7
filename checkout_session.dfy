/** Creating a Checkout Session from a posted order, the logic shared by the
    Express route `/create-checkout-session` in server.js and the serverless
    handler netlify/functions/create-checkout-session.js (the two hold the same
    code).  The payment provider's price lookups and session creation are
    inputs; amounts are integer cents. */
module CheckoutSession {
  import opened Base

  const MaxQuantity := 9
  /** Subtotal (cents) from which a free shipping option is offered. */
  const FreeShippingThreshold := 10000
  const StandardShippingCents := 500

  const MissingPriceError := "Missing Stripe Price ID in items."
  const InvalidSinglePayloadError := "Invalid payload for single-item checkout"
  const InvalidPricePrefix := "Invalid Stripe Price: "
  const CreateFallbackError := "Failed to create session"

  /** An entry of the posted `items` array.  Empty strings stand for missing
      ids; None for a `quantity` or `qty` that is null or undefined. */
  datatype RequestItem = RequestItem(price: string, stripePriceId: string,
                                     quantity: Option<int>, qty: Option<int>)

  /** The request body.  `items` is None when it is not an array; `price` is
      the single-item price in cents, None when it is not a number. */
  datatype Payload = Payload(items: Option<seq<RequestItem>>, title: string,
                             price: Option<int>, email: string, customerEmail: string)

  datatype Normalized = Normalized(price: string, quantity: int)

  /** A line item of the session to create. */
  datatype SessionLine =
    | ByPrice(price: string, quantity: int)
    | AdHoc(currency: string, name: string, unitAmount: int, quantity: int)

  datatype ShippingOption = ShippingOption(displayName: string, amount: int, currency: string,
                                           minBusinessDays: int, maxBusinessDays: int)

  /** What `prices.retrieve(pid)` gives: an integer unit amount, a price without
      a numeric unit amount (or no price), or a thrown error. */
  datatype PriceLookup = UnitAmount(cents: int) | NoUnitAmount | LookupThrows(message: string)

  /** What `checkout.sessions.create` gives. */
  datatype Creation = Created(url: string, id: string) | CreateThrows(message: string)

  /** The parts of the session request this code decides. */
  datatype SessionRequest = SessionRequest(lineItems: seq<SessionLine>, customerEmail: Option<string>,
                                           shippingOptions: seq<ShippingOption>, subtotal: int)

  datatype Prepared = Ready(request: SessionRequest) | BadRequest(error: string) | Threw(message: string)

  datatype Fetched = Amounts(amounts: map<string, int>) | InvalidPrice(pid: string) | FetchThrew(message: string)

  datatype Reply =
    | SessionReply(url: string, id: string, subtotal: int, showFree: bool)
    | ErrorReply(error: string)
    | TextReply(text: string)

  datatype Response = Response(status: int, reply: Reply)

  // ---- normalisation

  /** `Math.max(1, Math.min(9, q))`. */
  function ClampToLine(q: int): (r: int)
    ensures 1 <= r <= MaxQuantity
    ensures 1 <= q <= MaxQuantity ==> r == q
    ensures q < 1 ==> r == 1
    ensures q > MaxQuantity ==> r == MaxQuantity
  {
    Max(1, Min(MaxQuantity, q))
  }

  /** One posted item: the price falls back to `stripePriceId`, the quantity
      (`quantity ?? qty ?? 1`) is clamped into [1, 9]. */
  function Normalize(i: RequestItem): (r: Normalized)
    ensures r.price == (if i.price != "" then i.price else i.stripePriceId)
    ensures 1 <= r.quantity <= MaxQuantity
    ensures i.quantity.Some? ==> r.quantity == ClampToLine(i.quantity.value)
    ensures i.quantity.None? && i.qty.Some? ==> r.quantity == ClampToLine(i.qty.value)
    ensures i.quantity.None? && i.qty.None? ==> r.quantity == 1
  {
    var q := match i.quantity
      case Some(n) => n
      case None => i.qty.GetOr(1);
    Normalized(if i.price != "" then i.price else i.stripePriceId, ClampToLine(q))
  }

  function NormalizeAll(items: seq<RequestItem>): (r: seq<Normalized>)
    ensures |r| == |items|
    ensures forall k :: 0 <= k < |items| ==> r[k] == Normalize(items[k])
  {
    seq(|items|, k requires 0 <= k < |items| => Normalize(items[k]))
  }

  predicate HasMissingPrice(norm: seq<Normalized>) {
    exists k :: 0 <= k < |norm| && norm[k].price == ""
  }

  function PricesOf(norm: seq<Normalized>): (r: seq<string>)
    ensures |r| == |norm|
    ensures forall k :: 0 <= k < |norm| ==> r[k] == norm[k].price
  {
    seq(|norm|, k requires 0 <= k < |norm| => norm[k].price)
  }

  /** The position of the first occurrence of `x` in `s`. */
  function FirstIndex(s: seq<string>, x: string): (n: nat)
    requires x in s
    ensures n < |s| && s[n] == x
    ensures forall m :: 0 <= m < n ==> s[m] != x
  {
    if s[0] == x then 0 else 1 + FirstIndex(s[1..], x)
  }

  /** Appending an element leaves the first occurrences of earlier ones alone. */
  lemma {:induction false} FirstIndexAppend(s: seq<string>, t: string, x: string)
    requires x in s
    ensures x in s + [t] && FirstIndex(s + [t], x) == FirstIndex(s, x)
  {
    if s[0] != x {
      assert (s + [t])[1..] == s[1..] + [t];
      FirstIndexAppend(s[1..], t, x);
    }
  }

  /** Every element of `r` occurs in `s`, and `r` lists them in the order of
      their first occurrences in `s`. */
  predicate FirstOccurrenceOrder(r: seq<string>, s: seq<string>) {
    forall i, j :: 0 <= i < j < |r| ==>
      r[i] in s && r[j] in s && FirstIndex(s, r[i]) < FirstIndex(s, r[j])
  }

  /** `[...new Set(ids)]`: the distinct ids in order of first occurrence. */
  function Unique(s: seq<string>): (r: seq<string>)
    ensures NoDuplicates(r)
    ensures forall x :: x in r <==> x in s
    ensures FirstOccurrenceOrder(r, s)
  {
    if s == [] then []
    else
      var init := s[..|s| - 1];
      var last := s[|s| - 1];
      var u := Unique(init);
      assert s == init + [last];
      OrderAfterAppend(u, init, last);
      if last in u then u
      else
        OrderAfterNewLast(u, init, last);
        u + [last]
  }

  /** Appending to `s` keeps an order over elements already in `s`. */
  lemma OrderAfterAppend(u: seq<string>, s: seq<string>, t: string)
    requires forall x :: x in u ==> x in s
    requires FirstOccurrenceOrder(u, s)
    ensures FirstOccurrenceOrder(u, s + [t])
  {
    forall x | x in s ensures x in s + [t] && FirstIndex(s + [t], x) == FirstIndex(s, x) {
      FirstIndexAppend(s, t, x);
    }
  }

  /** A new element appended to `s` comes after every earlier one. */
  lemma OrderAfterNewLast(u: seq<string>, s: seq<string>, t: string)
    requires forall x :: x in u <==> x in s
    requires t !in s
    requires FirstOccurrenceOrder(u, s + [t])
    ensures FirstOccurrenceOrder(u + [t], s + [t])
  {
    var st := s + [t];
    assert FirstIndex(st, t) == |s| by {
      assert forall m :: 0 <= m < |s| ==> st[m] == s[m] && s[m] in s;
    }
    forall i | 0 <= i < |u| ensures u[i] in st && FirstIndex(st, u[i]) < |s| {
      assert u[i] in s;
      FirstIndexAppend(s, t, u[i]);
    }
  }

  /** The distinct ids of `x, y, x` are `x, y`: a repeat keeps the place of
      its first occurrence. */
  lemma UniqueKeepsFirstOccurrence(x: string, y: string)
    requires x != y
    ensures Unique([x, y, x]) == [x, y]
  {
    assert Unique([x]) == [x] by {
      assert [x][..0] == [];
    }
    assert Unique([x, y]) == [x, y] by {
      assert [x, y][..1] == [x];
    }
    assert [x, y, x][..2] == [x, y];
  }

  // ---- price lookups

  function CentsOf(l: PriceLookup): int {
    if l.UnitAmount? then l.cents else 0
  }

  /** The price map a successful lookup loop builds. */
  function PriceMap(pids: seq<string>, prices: string -> PriceLookup): (m: map<string, int>)
    ensures m.Keys == set pid | pid in pids
  {
    map pid | pid in pids :: CentsOf(prices(pid))
  }

  /** Every id has a unit amount. */
  predicate AllPriced(pids: seq<string>, prices: string -> PriceLookup) {
    forall k :: 0 <= k < |pids| ==> prices(pids[k]).UnitAmount?
  }

  /** Position k holds the first id without a unit amount. */
  predicate FirstUnpriced(pids: seq<string>, prices: string -> PriceLookup, k: int) {
    0 <= k < |pids| && !prices(pids[k]).UnitAmount?
    && forall j :: 0 <= j < k ==> prices(pids[j]).UnitAmount?
  }

  /** How the lookup loop stops at a price without a unit amount. */
  function FailureFor(pid: string, l: PriceLookup): Fetched {
    if l.LookupThrows? then FetchThrew(l.message) else InvalidPrice(pid)
  }

  /** The loop that retrieves each distinct price once, stopping at the first
      one without a numeric unit amount.  `looked` lists the ids retrieved. */
  method FetchUnitAmounts(pids: seq<string>, prices: string -> PriceLookup)
    returns (r: Fetched, looked: seq<string>)
    ensures r.Amounts? <==> AllPriced(pids, prices)
    ensures r.Amounts? ==> looked == pids && r.amounts == PriceMap(pids, prices)
    ensures r.Amounts? ==> forall pid :: pid in r.amounts ==> prices(pid) == UnitAmount(r.amounts[pid])
    ensures !r.Amounts? ==>
      exists k :: FirstUnpriced(pids, prices, k) && looked == pids[..k + 1]
        && r == FailureFor(pids[k], prices(pids[k]))
    ensures forall k :: FirstUnpriced(pids, prices, k) ==>
      !r.Amounts? && looked == pids[..k + 1] && r == FailureFor(pids[k], prices(pids[k]))
  {
    var m: map<string, int> := map[];
    looked := [];
    for i := 0 to |pids|
      invariant looked == pids[..i]
      invariant forall j :: 0 <= j < i ==> prices(pids[j]).UnitAmount?
      invariant m == PriceMap(pids[..i], prices)
    {
      var pid := pids[i];
      var p := prices(pid);
      looked := looked + [pid];
      assert pids[..i + 1] == pids[..i] + [pid];
      if !p.UnitAmount? {
        assert FirstUnpriced(pids, prices, i);
        r := if p.NoUnitAmount? then InvalidPrice(pid) else FetchThrew(p.message);
        return;
      }
      m := m[pid := p.cents];
    }
    assert pids[..|pids|] == pids;
    r := Amounts(m);
  }

  // ---- subtotal and shipping

  /** `normalized.reduce((sum, n) => sum + priceMap.get(n.price) * n.quantity, 0)`. */
  function Subtotal(norm: seq<Normalized>, amounts: map<string, int>): (r: int)
    requires forall k :: 0 <= k < |norm| ==> norm[k].price in amounts
    ensures (&& (forall pid :: pid in amounts ==> amounts[pid] >= 0)
             && (forall k :: 0 <= k < |norm| ==> norm[k].quantity >= 0)) ==> r >= 0
    ensures |norm| == 1 ==> r == amounts[norm[0].price] * norm[0].quantity
  {
    if norm == [] then 0
    else Subtotal(norm[..|norm| - 1], amounts)
         + amounts[norm[|norm| - 1].price] * norm[|norm| - 1].quantity
  }

  /** With non-negative unit amounts, the subtotal lies between the sum of the
      unit amounts and nine times that sum. */
  lemma {:induction false} SubtotalBounds(norm: seq<Normalized>, amounts: map<string, int>)
    requires forall k :: 0 <= k < |norm| ==> norm[k].price in amounts
    requires forall k :: 0 <= k < |norm| ==> 1 <= norm[k].quantity <= MaxQuantity
    requires forall pid :: pid in amounts ==> amounts[pid] >= 0
    ensures UnitSum(norm, amounts) <= Subtotal(norm, amounts) <= MaxQuantity * UnitSum(norm, amounts)
  {
    if norm != [] {
      var last := norm[|norm| - 1];
      SubtotalBounds(norm[..|norm| - 1], amounts);
      assert amounts[last.price] <= amounts[last.price] * last.quantity <= MaxQuantity * amounts[last.price];
    }
  }

  /** The sum of the unit amounts, one per posted line. */
  function UnitSum(norm: seq<Normalized>, amounts: map<string, int>): int
    requires forall k :: 0 <= k < |norm| ==> norm[k].price in amounts
  {
    if norm == [] then 0 else UnitSum(norm[..|norm| - 1], amounts) + amounts[norm[|norm| - 1].price]
  }

  function StandardShipping(): ShippingOption {
    ShippingOption("Standard Shipping", StandardShippingCents, "eur", 2, 7)
  }

  function FreeShipping(): ShippingOption {
    ShippingOption("Free Shipping (orders over €100)", 0, "eur", 2, 7)
  }

  /** Standard shipping is always offered first; a free option is added
      exactly when the subtotal reaches the threshold. */
  function ShippingOptions(subtotal: int): (r: seq<ShippingOption>)
    ensures 1 <= |r| <= 2
    ensures r[0] == StandardShipping() && r[0].amount == 500
    ensures |r| == 2 <==> subtotal >= 10000
    ensures |r| == 2 ==> r[1] == FreeShipping() && r[1].amount == 0
  {
    [StandardShipping()] + if subtotal >= FreeShippingThreshold then [FreeShipping()] else []
  }

  /** Reaching free shipping is kept when more goods are added. */
  lemma FreeShippingKept(norm: seq<Normalized>, more: seq<Normalized>, amounts: map<string, int>)
    requires forall k :: 0 <= k < |norm + more| ==> (norm + more)[k].price in amounts
    requires forall k :: 0 <= k < |more| ==> more[k].quantity >= 1
    requires forall pid :: pid in amounts ==> amounts[pid] >= 0
    requires forall k :: 0 <= k < |norm| ==> norm[k].price in amounts
    requires |ShippingOptions(Subtotal(norm, amounts))| == 2
    ensures |ShippingOptions(Subtotal(norm + more, amounts))| == 2
  {
    SubtotalGrows(norm, more, amounts);
  }

  /** The subtotal of concatenated lines is the sum of their subtotals. */
  lemma {:induction false} SubtotalAppend(norm: seq<Normalized>, more: seq<Normalized>, amounts: map<string, int>)
    requires forall k :: 0 <= k < |norm + more| ==> (norm + more)[k].price in amounts
    ensures forall k :: 0 <= k < |norm| ==> norm[k].price in amounts
    ensures forall k :: 0 <= k < |more| ==> more[k].price in amounts
    ensures Subtotal(norm + more, amounts) == Subtotal(norm, amounts) + Subtotal(more, amounts)
  {
    assert forall k :: 0 <= k < |norm| ==> norm[k] == (norm + more)[k];
    assert forall k :: 0 <= k < |more| ==> more[k] == (norm + more)[|norm| + k];
    if more != [] {
      var all := norm + more;
      var init := more[..|more| - 1];
      assert all[..|all| - 1] == norm + init;
      assert all[|all| - 1] == more[|more| - 1];
      SubtotalAppend(norm, init, amounts);
    } else {
      assert norm + more == norm;
    }
  }

  /** With non-negative unit amounts, more items never lower the subtotal. */
  lemma SubtotalGrows(norm: seq<Normalized>, more: seq<Normalized>, amounts: map<string, int>)
    requires forall k :: 0 <= k < |norm + more| ==> (norm + more)[k].price in amounts
    requires forall k :: 0 <= k < |more| ==> more[k].quantity >= 1
    requires forall pid :: pid in amounts ==> amounts[pid] >= 0
    ensures forall k :: 0 <= k < |norm| ==> norm[k].price in amounts
    ensures Subtotal(norm + more, amounts) >= Subtotal(norm, amounts)
  {
    SubtotalAppend(norm, more, amounts);
  }

  // ---- the handler body

  /** `Array.isArray(items) && items.length`: the cart flow, else the single item. */
  predicate CartFlow(body: Payload) {
    body.items.Some? && |body.items.value| > 0
  }

  /** `customer_email || email || undefined`. */
  function CustomerEmail(body: Payload): (r: Option<string>)
    ensures r.None? <==> body.customerEmail == "" && body.email == ""
    ensures r.Some? ==> r.value != ""
    ensures body.customerEmail != "" ==> r == Some(body.customerEmail)
    ensures body.customerEmail == "" && body.email != "" ==> r == Some(body.email)
  {
    if body.customerEmail != "" then Some(body.customerEmail)
    else if body.email != "" then Some(body.email)
    else None
  }

  function PricedLines(norm: seq<Normalized>): (r: seq<SessionLine>)
    ensures |r| == |norm|
    ensures forall k :: 0 <= k < |norm| ==> r[k] == ByPrice(norm[k].price, norm[k].quantity)
  {
    seq(|norm|, k requires 0 <= k < |norm| => ByPrice(norm[k].price, norm[k].quantity))
  }

  /** The session request a body leads to when no lookup fails: every cart
      price has a unit amount, or the single item has a title and a price. */
  function Planned(body: Payload, prices: string -> PriceLookup): (r: Option<SessionRequest>)
    ensures r.Some? ==> r.value.shippingOptions == ShippingOptions(r.value.subtotal)
    ensures r.Some? ==> r.value.customerEmail == CustomerEmail(body)
    ensures CartFlow(body) && r.Some? ==> |r.value.lineItems| == |body.items.value|
    ensures CartFlow(body) ==>
      var pids := Unique(PricesOf(NormalizeAll(body.items.value)));
      (r.Some? <==> !HasMissingPrice(NormalizeAll(body.items.value)) && AllPriced(pids, prices))
    ensures !CartFlow(body) ==> (r.Some? <==> body.title != "" && body.price.Some?)
    ensures !CartFlow(body) && r.Some? ==>
      r.value.subtotal == body.price.value && r.value.lineItems == [AdHoc("eur", body.title, body.price.value, 1)]
  {
    if CartFlow(body) then
      var norm := NormalizeAll(body.items.value);
      var pids := Unique(PricesOf(norm));
      if HasMissingPrice(norm) || !AllPriced(pids, prices) then None
      else
        assert forall k :: 0 <= k < |norm| ==> norm[k].price in PriceMap(pids, prices) by {
          forall k | 0 <= k < |norm| ensures norm[k].price in PriceMap(pids, prices) {
            assert PricesOf(norm)[k] == norm[k].price;
          }
        }
        var subtotal := Subtotal(norm, PriceMap(pids, prices));
        Some(SessionRequest(PricedLines(norm), CustomerEmail(body), ShippingOptions(subtotal), subtotal))
    else if body.title == "" || body.price.None? then None
    else Some(SessionRequest([AdHoc("eur", body.title, body.price.value, 1)], CustomerEmail(body),
                             ShippingOptions(body.price.value), body.price.value))
  }

  /** A cart request goes ahead exactly when every posted price id is set and
      has a unit amount: checking the distinct ids is checking them all. */
  lemma PlannedNeedsEveryPrice(body: Payload, prices: string -> PriceLookup)
    requires CartFlow(body)
    ensures var norm := NormalizeAll(body.items.value);
      Planned(body, prices).Some? <==>
        forall k :: 0 <= k < |norm| ==> norm[k].price != "" && prices(norm[k].price).UnitAmount?
  {
    var norm := NormalizeAll(body.items.value);
    var pids := Unique(PricesOf(norm));
    forall k | 0 <= k < |norm| ensures norm[k].price in pids {
      assert PricesOf(norm)[k] == norm[k].price;
    }
    forall k | 0 <= k < |pids| ensures exists m :: 0 <= m < |norm| && norm[m].price == pids[k] {
      assert pids[k] in PricesOf(norm);
      var m :| 0 <= m < |norm| && PricesOf(norm)[m] == pids[k];
    }
  }

  /** Builds the line items, the subtotal and the shipping options, or the
      400 / thrown error that stops the request.  `lookups` are the price ids
      retrieved, in order. */
  method Prepare(body: Payload, prices: string -> PriceLookup)
    returns (p: Prepared, lookups: seq<string>)
    ensures NoDuplicates(lookups)
    ensures p.Ready? <==> Planned(body, prices).Some?
    ensures p.Ready? ==> Planned(body, prices) == Some(p.request)
    ensures CartFlow(body) && HasMissingPrice(NormalizeAll(body.items.value)) ==>
      p == BadRequest(MissingPriceError) && lookups == []
    ensures CartFlow(body) && !HasMissingPrice(NormalizeAll(body.items.value)) ==>
      var norm := NormalizeAll(body.items.value);
      var pids := Unique(PricesOf(norm));
      if AllPriced(pids, prices) then
        && lookups == pids
        && (forall k :: 0 <= k < |norm| ==> norm[k].price in PriceMap(pids, prices))
        && var subtotal := Subtotal(norm, PriceMap(pids, prices));
           p == Ready(SessionRequest(PricedLines(norm), CustomerEmail(body), ShippingOptions(subtotal), subtotal))
      else
        forall k :: FirstUnpriced(pids, prices, k) ==>
          && lookups == pids[..k + 1]
          && p == (if prices(pids[k]).LookupThrows? then Threw(prices(pids[k]).message)
                   else BadRequest(InvalidPricePrefix + pids[k]))
    ensures !CartFlow(body) ==> lookups == []
    ensures !CartFlow(body) && (body.title == "" || body.price.None?) ==>
      p == BadRequest(InvalidSinglePayloadError)
    ensures !CartFlow(body) && body.title != "" && body.price.Some? ==>
      p == Ready(SessionRequest([AdHoc("eur", body.title, body.price.value, 1)], CustomerEmail(body),
                                ShippingOptions(body.price.value), body.price.value))
  {
    lookups := [];
    var lineItems: seq<SessionLine>;
    var subtotal: int;
    if CartFlow(body) {
      var norm := NormalizeAll(body.items.value);
      if exists k :: 0 <= k < |norm| && norm[k].price == "" {
        return BadRequest(MissingPriceError), [];
      }
      var pids := Unique(PricesOf(norm));
      var fetched;
      fetched, lookups := FetchUnitAmounts(pids, prices);
      match fetched
      case InvalidPrice(pid) =>
        return BadRequest(InvalidPricePrefix + pid), lookups;
      case FetchThrew(message) =>
        return Threw(message), lookups;
      case Amounts(amounts) =>
        forall k | 0 <= k < |norm| ensures norm[k].price in amounts {
          assert PricesOf(norm)[k] == norm[k].price;
        }
        subtotal := Subtotal(norm, amounts);
        lineItems := PricedLines(norm);
    } else {
      if body.title == "" || body.price.None? {
        return BadRequest(InvalidSinglePayloadError), [];
      }
      var unitAmount := body.price.value;
      subtotal := unitAmount;
      lineItems := [AdHoc("eur", body.title, unitAmount, 1)];
    }
    p := Ready(SessionRequest(lineItems, CustomerEmail(body), ShippingOptions(subtotal), subtotal));
  }

  /** The route body shared by both deployments: prepare, create the session,
      and turn every thrown error into a 500 carrying its message or a generic
      fallback.  `sent` is the request handed to session creation, if any. */
  method CreateSession(body: Payload, prices: string -> PriceLookup, create: Creation)
    returns (resp: Response, lookups: seq<string>, sent: Option<SessionRequest>)
    ensures NoDuplicates(lookups)
    ensures resp.status == 400 ==> resp.reply.ErrorReply? && sent.None?
    ensures resp.status in {200, 400, 500}
    ensures resp.status == 200 <==> sent.Some? && create.Created?
    ensures resp.status == 200 ==>
      resp.reply == SessionReply(create.url, create.id, sent.value.subtotal,
                                 sent.value.subtotal >= FreeShippingThreshold)
    ensures sent == Planned(body, prices)
    ensures sent.Some? ==> sent.value.shippingOptions == ShippingOptions(sent.value.subtotal)
    ensures CartFlow(body) && HasMissingPrice(NormalizeAll(body.items.value)) ==>
      resp == Response(400, ErrorReply(MissingPriceError)) && lookups == [] && sent.None?
    ensures !CartFlow(body) && (body.title == "" || body.price.None?) ==>
      resp == Response(400, ErrorReply(InvalidSinglePayloadError)) && lookups == [] && sent.None?
    ensures resp.status == 500 ==>
      resp.reply.ErrorReply? && resp.reply.error != ""
    ensures CartFlow(body) && !HasMissingPrice(NormalizeAll(body.items.value)) ==>
      var pids := Unique(PricesOf(NormalizeAll(body.items.value)));
      forall k :: FirstUnpriced(pids, prices, k) ==>
        && lookups == pids[..k + 1] && sent.None?
        && resp == (if prices(pids[k]).LookupThrows? then Response(500, ErrorReply(ThrownMessage(prices(pids[k]).message)))
                    else Response(400, ErrorReply(InvalidPricePrefix + pids[k])))
    ensures sent.Some? && create.CreateThrows? ==> resp == Response(500, ErrorReply(ThrownMessage(create.message)))
  {
    var p;
    p, lookups := Prepare(body, prices);
    match p
    case BadRequest(error) =>
      resp, sent := Response(400, ErrorReply(error)), None;
    case Threw(message) =>
      resp, sent := Response(500, ErrorReply(ThrownMessage(message))), None;
    case Ready(request) =>
      sent := Some(request);
      match create
      case Created(url, id) =>
        resp := Response(200, SessionReply(url, id, request.subtotal, request.subtotal >= FreeShippingThreshold));
      case CreateThrows(message) =>
        resp := Response(500, ErrorReply(ThrownMessage(message)));
  }

  /** `e.message || 'Failed to create session'`. */
  function ThrownMessage(message: string): (r: string)
    ensures r != ""
    ensures message != "" ==> r == message
  {
    if message != "" then message else CreateFallbackError
  }
}
