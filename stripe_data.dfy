/** The shape of a Checkout Session line item as the payment provider lists
    it, and the two ways the handlers read a price id from it. */
module StripeData {
  import opened Base

  /** The `price` field of a listed line item: absent, a bare id (not
      expanded), or an expanded price object with its `id` ("" when missing). */
  datatype PriceRef = NoPrice | PriceText(text: string) | PriceObject(id: string)

  /** A listed line item.  `priceIdField` is the legacy `price_id` field
      ("" when missing); `quantity` is None when absent or null. */
  datatype LineItem = LineItem(price: PriceRef, priceIdField: string, quantity: Option<int>)

  /** `li.price?.id || li.price || li.price_id` in the webhook's stock update.
      An expanded price object without an id is itself truthy, so it becomes
      the map key; no product's string price id can equal that object, so the
      item can never decrement stock and is returned here as None. */
  function WebhookPriceId(li: LineItem): (r: Option<string>)
    ensures r.Some? ==> r.value != ""
  {
    match li.price
    case PriceObject(id) => if id != "" then Some(id) else None
    case PriceText(t) =>
      if t != "" then Some(t)
      else if li.priceIdField != "" then Some(li.priceIdField) else None
    case NoPrice => if li.priceIdField != "" then Some(li.priceIdField) else None
  }

  /** `x.price?.id` kept only when truthy: the id of an expanded price. */
  function ExpandedPriceId(li: LineItem): (r: Option<string>)
    ensures r.Some? <==> li.price.PriceObject? && li.price.id != ""
    ensures r.Some? ==> r.value == li.price.id
  {
    if li.price.PriceObject? && li.price.id != "" then Some(li.price.id) else None
  }
}
