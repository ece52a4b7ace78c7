/** The Express server's inventory side (server.js): the processed-session
    ledger, the stock decrement applied from a completed session's line items,
    and the order in which the `checkout.session.completed` webhook uses them.
    The two JSON files are fields of ServerFiles; the provider's line-item
    listing is an input.  (Its `/create-checkout-session` route is modelled in
    module CheckoutSession.) */
module Server {
  import opened Base
  import opened StripeData

  const CompletedEvent := "checkout.session.completed"
  /** The error for a products file that is not there.  The source puts the
      configured path (`PRODUCTS_JSON_PATH`) into the message; this model uses
      the default file name. */
  const CannotReadProducts := "Cannot read products at products.json"

  /** A JSON file as readJSON sees it: absent (ENOENT), failing to read or
      parse for any other reason, or holding a value. */
  datatype FileState<T> = NoFile | Unreadable(message: string) | Holds(content: T)

  /** A catalog product; `stock` is None when the field is absent or null.
      An empty `stripePriceId` stands for a missing one. */
  datatype Product = Product(id: string, title: string, stripePriceId: string, stock: Option<int>)

  /** What `checkout.sessions.listLineItems` gives. */
  datatype Listing = Listed(data: seq<LineItem>) | ListThrows(message: string)

  // ---- JSON files and the processed-session ledger

  /** readJSON: a missing file reads as null (None); other failures are rethrown. */
  function ReadJSON<T>(f: FileState<T>): (r: Result<Option<T>>)
    ensures r == Ok(None) <==> f.NoFile?
    ensures r.Err? <==> f.Unreadable?
  {
    match f
    case NoFile => Ok(None)
    case Unreadable(m) => Err(m)
    case Holds(v) => Ok(Some(v))
  }

  /** loadLedger: the processed list, empty when the file does not exist. */
  function LoadLedger(f: FileState<seq<string>>): (r: Result<seq<string>>)
    ensures f.NoFile? ==> r == Ok([])
    ensures f.Holds? ==> r == Ok(f.content)
    ensures r.Err? <==> f.Unreadable?
  {
    match ReadJSON(f)
    case Err(m) => Err(m)
    case Ok(v) => Ok(v.GetOr([]))
  }

  // ---- aggregating purchased quantities

  /** `Number(li.quantity || 0)`. */
  function Quantity(li: LineItem): int {
    li.quantity.GetOr(0)
  }

  /** The quantity of price `pid` across the line items. */
  function PurchasedQty(items: seq<LineItem>, pid: string): (r: int)
    ensures pid == "" ==> r == 0
    ensures (forall i :: 0 <= i < |items| ==> WebhookPriceId(items[i]) != Some(pid)) ==> r == 0
    ensures |items| == 1 ==> r == (if WebhookPriceId(items[0]) == Some(pid) then Quantity(items[0]) else 0)
  {
    if items == [] then 0
    else
      var last := items[|items| - 1];
      PurchasedQty(items[..|items| - 1], pid) + (if WebhookPriceId(last) == Some(pid) then Quantity(last) else 0)
  }

  lemma {:induction false} PurchasedQtyAppend(a: seq<LineItem>, b: seq<LineItem>, pid: string)
    ensures PurchasedQty(a + b, pid) == PurchasedQty(a, pid) + PurchasedQty(b, pid)
  {
    if b == [] {
      assert a + b == a;
    } else {
      assert (a + b)[..|a + b| - 1] == a + b[..|b| - 1];
      PurchasedQtyAppend(a, b[..|b| - 1], pid);
    }
  }

  /** The purchased quantities do not depend on the order of the line items. */
  lemma PurchasedQtyOrderFree(a: seq<LineItem>, b: seq<LineItem>, pid: string)
    ensures PurchasedQty(a + b, pid) == PurchasedQty(b + a, pid)
  {
    PurchasedQtyAppend(a, b, pid);
    PurchasedQtyAppend(b, a, pid);
  }

  /** `qtyByPrice.get(pid)`, with a missing entry read as 0. */
  function Lookup(q: map<string, int>, pid: string): int {
    if pid in q then q[pid] else 0
  }

  /** The first loop of updateStockFromLineItems: sum the quantities per
      price id, skipping items without a price id or with quantity 0. */
  method AggregateQuantities(items: seq<LineItem>) returns (q: map<string, int>)
    ensures forall pid :: Lookup(q, pid) == PurchasedQty(items, pid)
    ensures forall pid :: pid in q ==> pid != ""
  {
    q := map[];
    for i := 0 to |items|
      invariant forall pid :: Lookup(q, pid) == PurchasedQty(items[..i], pid)
      invariant forall pid :: pid in q ==> pid != ""
    {
      var li := items[i];
      assert items[..i + 1][..i] == items[..i];
      var priceId := WebhookPriceId(li);
      var qty := Quantity(li);
      if priceId.None? || qty == 0 {
        continue;
      }
      q := q[priceId.value := Lookup(q, priceId.value) + qty];
    }
    assert items[..|items|] == items;
  }

  // ---- decrementing stock

  /** One product after a purchase of `dec` units of its price:
      `Math.max(0, Number(p.stock ?? 0) - dec)`, written only when it differs. */
  function AfterPurchase(p: Product, dec: int): (r: Product)
    ensures r == p.(stock := r.stock)
    ensures dec == 0 ==> r == p
    ensures dec != 0 ==> r.stock.GetOr(0) == Max(0, p.stock.GetOr(0) - dec)
    ensures r != p ==> r.stock == Some(Max(0, p.stock.GetOr(0) - dec)) && r.stock.value != p.stock.GetOr(0)
  {
    if dec == 0 then p
    else
      var cur := p.stock.GetOr(0);
      var next := Max(0, cur - dec);
      if next != cur then p.(stock := Some(next)) else p
  }

  /** The catalog after the purchases in `items`. */
  function Restocked(ps: seq<Product>, items: seq<LineItem>): (r: seq<Product>)
    ensures |r| == |ps|
  {
    seq(|ps|, i requires 0 <= i < |ps| => AfterPurchase(ps[i], PurchasedQty(items, ps[i].stripePriceId)))
  }

  /** Only stock changes; a product whose price was purchased ends with stock
      max(0, stock - purchased), never negative; any other product is untouched. */
  lemma RestockedEffect(ps: seq<Product>, items: seq<LineItem>, i: nat)
    requires i < |ps|
    ensures Restocked(ps, items)[i] == ps[i].(stock := Restocked(ps, items)[i].stock)
    ensures PurchasedQty(items, ps[i].stripePriceId) == 0 ==> Restocked(ps, items)[i] == ps[i]
    ensures PurchasedQty(items, ps[i].stripePriceId) != 0 ==>
      Restocked(ps, items)[i].stock.GetOr(0) == Max(0, ps[i].stock.GetOr(0) - PurchasedQty(items, ps[i].stripePriceId))
    ensures PurchasedQty(items, ps[i].stripePriceId) != 0 ==> Restocked(ps, items)[i].stock.GetOr(0) >= 0
  {
  }

  /** With non-negative quantities, stock never rises and a catalog with no
      negative stock keeps none. */
  lemma RestockedInRange(ps: seq<Product>, items: seq<LineItem>)
    requires forall li :: li in items ==> Quantity(li) >= 0
    requires forall i :: 0 <= i < |ps| ==> ps[i].stock.GetOr(0) >= 0
    ensures forall i :: 0 <= i < |ps| ==>
      0 <= Restocked(ps, items)[i].stock.GetOr(0) <= ps[i].stock.GetOr(0)
  {
    forall pid ensures PurchasedQty(items, pid) >= 0 {
      PurchasedQtyNonNegative(items, pid);
    }
  }

  lemma {:induction false} PurchasedQtyNonNegative(items: seq<LineItem>, pid: string)
    requires forall li :: li in items ==> Quantity(li) >= 0
    ensures PurchasedQty(items, pid) >= 0
  {
    if items != [] {
      assert items[|items| - 1] in items;
      assert forall li :: li in items[..|items| - 1] ==> li in items;
      PurchasedQtyNonNegative(items[..|items| - 1], pid);
    }
  }

  /** Applying the same line items a second time decrements again: stock 5
      with a purchase of 2 becomes 3, then 1.  The processed-session ledger is
      what keeps a replayed webhook from doing this. */
  lemma RestockingTwiceDecrementsTwice(p: Product, li: LineItem)
    requires p.stripePriceId != "" && p.stock == Some(5)
    requires li == LineItem(PriceObject(p.stripePriceId), "", Some(2))
    ensures Restocked([p], [li])[0].stock == Some(3)
    ensures Restocked(Restocked([p], [li]), [li])[0].stock == Some(1)
  {
    assert [li][..0] == [];
    assert PurchasedQty([li], p.stripePriceId) == 2;
  }

  /** The second loop of updateStockFromLineItems, in place on the products
      array; `changed` tells whether any stock value was rewritten. */
  method ApplyPurchases(products: array<Product>, q: map<string, int>) returns (changed: bool)
    modifies products
    ensures forall i :: 0 <= i < products.Length ==>
      products[i] == AfterPurchase(old(products[i]), Lookup(q, old(products[i]).stripePriceId))
    ensures changed <==> products[..] != old(products[..])
  {
    changed := false;
    for i := 0 to products.Length
      invariant forall j :: 0 <= j < i ==>
        products[j] == AfterPurchase(old(products[j]), Lookup(q, old(products[j]).stripePriceId))
      invariant forall j :: i <= j < products.Length ==> products[j] == old(products[j])
      invariant changed <==> exists j :: 0 <= j < i && products[j] != old(products[j])
    {
      var p := products[i];
      var dec := Lookup(q, p.stripePriceId);
      if dec == 0 {
        continue;
      }
      var cur := p.stock.GetOr(0);
      var next := Max(0, cur - dec);
      if next != cur {
        products[i] := p.(stock := Some(next));
        changed := true;
      }
    }
    if changed {
      ghost var j :| 0 <= j < products.Length && products[j] != old(products[j]);
      assert products[..][j] != old(products[..])[j];
    }
  }

  /** The two files the server keeps on disk. */
  class ServerFiles {
    var products: FileState<seq<Product>>
    var ledger: FileState<seq<string>>

    constructor (products: FileState<seq<Product>>, ledger: FileState<seq<string>>)
      ensures this.products == products && this.ledger == ledger
    {
      this.products := products;
      this.ledger := ledger;
    }

    /** isProcessed(id); Err when the ledger file cannot be read. */
    function IsProcessed(id: string): (r: Result<bool>)
      reads this
      ensures r.Err? <==> ledger.Unreadable?
      ensures ledger.NoFile? ==> r == Ok(false)
      ensures ledger.Holds? ==> r == Ok(id in ledger.content)
    {
      match LoadLedger(ledger)
      case Err(m) => Err(m)
      case Ok(l) => Ok(id in l)
    }

    /** markProcessed(id): append the id when absent.  Returns whether it was
        appended; `writeFault` is the error the write of the ledger throws, if
        any. */
    method MarkProcessed(id: string, writeFault: Option<string>) returns (r: Result<bool>)
      modifies this
      ensures products == old(products)
      ensures old(ledger).Unreadable? ==> r == Err(old(ledger).message) && ledger == old(ledger)
      ensures !old(ledger).Unreadable? && id !in LoadLedger(old(ledger)).value && writeFault.Some? ==>
        r == Err(writeFault.value) && ledger == old(ledger)
      ensures !old(ledger).Unreadable? && (id in LoadLedger(old(ledger)).value || writeFault.None?) ==>
        var l := LoadLedger(old(ledger)).value;
        && r == Ok(id !in l)
        && ledger == (if id in l then old(ledger) else Holds(l + [id]))
        && IsProcessed(id) == Ok(true)
        && (NoDuplicates(l) ==> NoDuplicates(ledger.content))
    {
      var loaded := LoadLedger(ledger);
      if loaded.Err? {
        return Err(loaded.message);
      }
      var l := loaded.value;
      if id !in l {
        if writeFault.Some? {
          return Err(writeFault.value);
        }
        l := l + [id];
        ledger := Holds(l);
        return Ok(true);
      }
      r := Ok(false);
    }

    /** updateStockFromLineItems: Ok(changed), writing the products file only
        when some stock changed; Err when the products cannot be read or when
        that write throws `writeFault`. */
    method UpdateStockFromLineItems(items: seq<LineItem>, writeFault: Option<string>) returns (r: Result<bool>)
      modifies this
      ensures ledger == old(ledger)
      ensures old(products).NoFile? ==> r == Err(CannotReadProducts) && products == old(products)
      ensures old(products).Unreadable? ==> r == Err(old(products).message) && products == old(products)
      ensures old(products).Holds? ==>
        var ps := old(products).content;
        if Restocked(ps, items) != ps && writeFault.Some? then
          r == Err(writeFault.value) && products == old(products)
        else
          && r == Ok(Restocked(ps, items) != ps)
          && products == (if Restocked(ps, items) != ps then Holds(Restocked(ps, items)) else old(products))
    {
      match products
      case NoFile =>
        return Err(CannotReadProducts);
      case Unreadable(m) =>
        return Err(m);
      case Holds(ps) =>
        var q := AggregateQuantities(items);
        var a := new Product[|ps|](i requires 0 <= i < |ps| => ps[i]);
        assert a[..] == ps;
        var changed := ApplyPurchases(a, q);
        assert a[..] == Restocked(ps, items);
        if changed {
          if writeFault.Some? {
            return Err(writeFault.value);
          }
          products := Holds(a[..]);
        }
        r := Ok(changed);
    }

    /** The webhook after its signature check: a completed session already in
        the ledger is skipped; otherwise its line items are listed, stock is
        updated, and only then is the session marked processed.  Any thrown
        error gives 500, so a failing ledger write leaves the stock
        decremented without recording the session.  `productsWrite` and
        `ledgerWrite` are the errors the two file writes throw, if any. */
    method HandleWebhookEvent(eventType: string, sessionId: string, listing: Listing,
                              productsWrite: Option<string>, ledgerWrite: Option<string>)
      returns (status: int)
      modifies this
      ensures status == 200 || status == 500
      ensures eventType != CompletedEvent ==> status == 200 && products == old(products) && ledger == old(ledger)
      ensures eventType == CompletedEvent && old(IsProcessed(sessionId)) == Ok(true) ==>
        status == 200 && products == old(products) && ledger == old(ledger)
      ensures eventType == CompletedEvent && old(ledger).Unreadable? ==> status == 500 && products == old(products) && ledger == old(ledger)
      ensures eventType == CompletedEvent && old(IsProcessed(sessionId)) == Ok(false) ==>
        if listing.ListThrows? || !old(products).Holds? then
          status == 500 && products == old(products) && ledger == old(ledger)
        else
          var ps := old(products).content;
          var next := Restocked(ps, listing.data);
          if next != ps && productsWrite.Some? then
            status == 500 && products == old(products) && ledger == old(ledger)
          else
            && products == (if next != ps then Holds(next) else old(products))
            && (ledgerWrite.Some? ==> status == 500 && ledger == old(ledger))
            && (ledgerWrite.None? ==>
                  && status == 200
                  && ledger == Holds(LoadLedger(old(ledger)).value + [sessionId])
                  && IsProcessed(sessionId) == Ok(true))
    {
      if eventType != CompletedEvent {
        return 200;
      }
      var processed := IsProcessed(sessionId);
      if processed.Err? {
        return 500;
      }
      if processed.value {
        return 200;
      }
      if listing.ListThrows? {
        return 500;
      }
      var updated := UpdateStockFromLineItems(listing.data, productsWrite);
      if updated.Err? {
        return 500;
      }
      var marked := MarkProcessed(sessionId, ledgerWrite);
      if marked.Err? {
        return 500;
      }
      status := 200;
    }
  }

  /** A webhook replayed after a successful delivery changes nothing: the
      products are decremented once. */
  method ReplayedWebhookDecrementsOnce(files: ServerFiles, sessionId: string, items: seq<LineItem>)
      returns (first: int, second: int)
    requires !files.ledger.Unreadable?
    requires files.ledger.Holds? ==> sessionId !in files.ledger.content
    requires files.products.Holds?
    modifies files
    ensures first == 200 && second == 200
    ensures var ps := old(files.products).content;
      files.products == (if Restocked(ps, items) != ps then Holds(Restocked(ps, items)) else old(files.products))
  {
    first := files.HandleWebhookEvent(CompletedEvent, sessionId, Listed(items), None, None);
    second := files.HandleWebhookEvent(CompletedEvent, sessionId, Listed(items), None, None);
  }

  /** When the ledger write of a first delivery throws, the webhook answers
      500 after stock was already decremented; the provider's redelivery then
      succeeds and decrements the same purchase a second time. */
  method LostLedgerWriteDecrementsTwice(files: ServerFiles, sessionId: string, items: seq<LineItem>,
                                        fault: string)
      returns (first: int, second: int)
    requires !files.ledger.Unreadable?
    requires files.ledger.Holds? ==> sessionId !in files.ledger.content
    requires files.products.Holds?
    modifies files
    ensures first == 500 && second == 200
    ensures var ps := old(files.products).content;
      files.products == Holds(Restocked(Restocked(ps, items), items))
  {
    first := files.HandleWebhookEvent(CompletedEvent, sessionId, Listed(items), None, Some(fault));
    second := files.HandleWebhookEvent(CompletedEvent, sessionId, Listed(items), None, None);
  }
}
