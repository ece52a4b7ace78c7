/** The client-side bag of cart.js: the stock policy every quantity change goes
    through, the line list with its mutators, and the guards that run before an
    order request is built.  Prices are integer cents. */
module CartStore {
  import opened Base

  /** The per-line quantity cap. */
  const MaxPerLine := 9

  /** What JavaScript's Number(...) makes of a value, restricted to integers. */
  datatype JsNumber = Int(n: int) | NaN

  /** The `stock` field of an item handed to `add`. */
  datatype StockField =
    | NoStock                         // undefined
    | NumberStock(n: int)             // a finite JavaScript number
    | OtherStock(asNumber: JsNumber)  // text, null, an infinite or NaN number: what Number() makes of it

  /** An item as the product page hands it to `add`.  A missing or falsy
      `qty` is None; Some(x) is a truthy value that Number() reads as x, so
      Some(Int(0)) is a text such as "0" and Some(NaN) a text Number() cannot
      read.  An empty `stripePriceId` stands for a missing one. */
  datatype Item = Item(id: string, size: string, title: string, price: int,
                       stripePriceId: string, qty: Option<JsNumber>, stock: StockField)

  /** One line of the bag; `stock` is the snapshot getStock computed. */
  datatype Line = Line(id: string, size: string, title: string, price: int,
                       stripePriceId: string, qty: int, stock: nat)

  /** One entry of the order request: a price id and a quantity. */
  datatype OrderItem = OrderItem(price: string, quantity: int)

  /** How `checkout` ends. */
  datatype CheckoutOutcome =
    | NothingToSend                                 // the bag is empty: silent return
    | InsufficientStock(title: string, available: int)
    | NotPurchasable                                // some line has no price id
    | EmptyBag                                      // the subtotal is not positive
    | Send(order: seq<OrderItem>, subtotalCents: int)

  // ---- stock policy

  /** Number(stock). */
  function Coerce(s: StockField): JsNumber {
    match s
    case NoStock => NaN
    case NumberStock(n) => Int(n)
    case OtherStock(x) => x
  }

  /** getStock: the coerced stock floored at 0, or a single unit when the
      stock cannot be read as a number. */
  function GetStock(s: StockField): (r: nat)
    ensures r == 0 <==> Coerce(s).Int? && Coerce(s).n <= 0
    ensures Coerce(s).Int? && Coerce(s).n > 0 ==> r == Coerce(s).n
    ensures Coerce(s).NaN? ==> r == 1
  {
    match Coerce(s)
    case Int(n) => Max(0, n)
    case NaN => 1
  }

  /** `Number(q) || 1`: zero and NaN become 1. */
  function Requested(q: JsNumber): int {
    match q
    case Int(n) => if n == 0 then 1 else n
    case NaN => 1
  }

  /** clampQty, given the line's effective stock (getStock of a line is its
      stored stock, a number already floored at 0). */
  function ClampQty(stock: nat, q: JsNumber): (r: nat)
    ensures r == 0 <==> stock == 0
    ensures stock > 0 ==> 1 <= r <= Min(stock, MaxPerLine)
    ensures stock > 0 && q.Int? && 1 <= q.n <= Min(stock, MaxPerLine) ==> r == q.n
    ensures stock > 0 && q.Int? && q.n > Min(stock, MaxPerLine) ==> r == Min(stock, MaxPerLine)
    ensures stock > 0 && (q.NaN? || q.n <= 0) ==> r == 1
  {
    if stock == 0 then 0 else Max(1, Min(Requested(q), Min(stock, MaxPerLine)))
  }

  /** A larger request never yields a smaller quantity. */
  lemma ClampQtyMonotone(stock: nat, a: int, b: int)
    requires a <= b
    ensures ClampQty(stock, Int(a)) <= ClampQty(stock, Int(b))
  {
  }

  // ---- helpers

  /** key(i): the id and the size joined by "::". */
  function Key(id: string, size: string): (r: string)
    ensures |r| == |id| + 2 + |size|
  {
    id + "::" + size
  }

  /** The key starts with the id, then "::", and ends with the size. */
  lemma KeyParts(id: string, size: string)
    ensures var r := Key(id, size);
      r[..|id|] == id && r[|id|..|id| + 2] == "::" && r[|id| + 2..] == size
  {
  }

  function KeyOf(l: Line): string { Key(l.id, l.size) }

  function ItemKey(item: Item): string { Key(item.id, item.size) }

  /** `Number(item.qty || 1)`: a falsy quantity requests one unit, a truthy
      one is read as a number. */
  function IncomingQty(q: Option<JsNumber>): (r: JsNumber)
    ensures q.None? ==> r == Int(1)
    ensures q.Some? ==> r == q.value
  {
    match q
    case None => Int(1)
    case Some(x) => x
  }

  /** JavaScript `+` on two numbers. */
  function Plus(a: JsNumber, b: JsNumber): JsNumber {
    if a.Int? && b.Int? then Int(a.n + b.n) else NaN
  }

  /** The quantity a line may hold. */
  predicate LineOk(l: Line) {
    1 <= l.stock && 1 <= l.qty <= Min(l.stock, MaxPerLine)
  }

  predicate AllLinesOk(lines: seq<Line>) {
    forall i :: 0 <= i < |lines| ==> LineOk(lines[i])
  }

  predicate KeysUnique(lines: seq<Line>) {
    forall i, j :: 0 <= i < j < |lines| ==> KeyOf(lines[i]) != KeyOf(lines[j])
  }

  /** The bag invariant: every line has stock, a quantity in [1, min(stock, 9)],
      and a key no other line has. */
  predicate WellFormed(lines: seq<Line>) {
    AllLinesOk(lines) && KeysUnique(lines)
  }

  /** `state.items.find(i => key(i) === k)`, as an index. */
  function Find(lines: seq<Line>, k: string): (r: Option<nat>)
    ensures r.Some? ==> r.value < |lines| && KeyOf(lines[r.value]) == k
    ensures r.Some? ==> forall i :: 0 <= i < r.value ==> KeyOf(lines[i]) != k
    ensures r.None? <==> forall i :: 0 <= i < |lines| ==> KeyOf(lines[i]) != k
  {
    if lines == [] then None
    else if KeyOf(lines[0]) == k then Some(0)
    else match Find(lines[1..], k)
      case None => None
      case Some(j) => Some(j + 1)
  }

  /** count(): the sum of the quantities. */
  function SumQty(lines: seq<Line>): (r: int)
    ensures (forall i :: 0 <= i < |lines| ==> lines[i].qty >= 0) ==> r >= 0
    ensures |lines| == 1 ==> r == lines[0].qty
  {
    if lines == [] then 0 else lines[0].qty + SumQty(lines[1..])
  }

  /** subtotal(): the sum of quantity times unit price. */
  function SumPrice(lines: seq<Line>): (r: int)
    ensures (forall i :: 0 <= i < |lines| ==> lines[i].qty >= 0 && lines[i].price >= 0) ==> r >= 0
    ensures |lines| == 1 ==> r == lines[0].qty * lines[0].price
  {
    if lines == [] then 0 else lines[0].qty * lines[0].price + SumPrice(lines[1..])
  }

  lemma {:induction false} SumQtyAppend(a: seq<Line>, b: seq<Line>)
    ensures SumQty(a + b) == SumQty(a) + SumQty(b)
  {
    if a == [] {
      assert a + b == b;
    } else {
      assert (a + b)[1..] == a[1..] + b;
      SumQtyAppend(a[1..], b);
    }
  }

  lemma {:induction false} SumPriceAppend(a: seq<Line>, b: seq<Line>)
    ensures SumPrice(a + b) == SumPrice(a) + SumPrice(b)
  {
    if a == [] {
      assert a + b == b;
    } else {
      assert (a + b)[1..] == a[1..] + b;
      SumPriceAppend(a[1..], b);
    }
  }

  /** In a well-formed bag the item count lies between the number of lines
      and nine times that number. */
  lemma {:induction false} CountBounds(lines: seq<Line>)
    requires AllLinesOk(lines)
    ensures |lines| <= SumQty(lines) <= MaxPerLine * |lines|
  {
    if lines != [] {
      assert LineOk(lines[0]);
      assert AllLinesOk(lines[1..]) by {
        forall i | 0 <= i < |lines[1..]| ensures LineOk(lines[1..][i]) {
          assert lines[1..][i] == lines[i + 1];
        }
      }
      CountBounds(lines[1..]);
    }
  }

  /** With every price positive, a non-empty well-formed bag has a positive subtotal. */
  lemma {:induction false} SubtotalPositive(lines: seq<Line>)
    requires AllLinesOk(lines)
    requires forall i :: 0 <= i < |lines| ==> lines[i].price > 0
    ensures lines != [] ==> SumPrice(lines) > 0
    ensures SumPrice(lines) >= 0
  {
    if lines != [] {
      assert LineOk(lines[0]);
      assert lines[0].qty * lines[0].price > 0;
      assert AllLinesOk(lines[1..]) by {
        forall i | 0 <= i < |lines[1..]| ensures LineOk(lines[1..][i]) {
          assert lines[1..][i] == lines[i + 1];
        }
      }
      SubtotalPositive(lines[1..]);
    }
  }

  // ---- add

  /** The line a new key gets. */
  function NewLine(item: Item): Line {
    var stock := GetStock(item.stock);
    Line(item.id, item.size, item.title, item.price, item.stripePriceId,
         ClampQty(stock, IncomingQty(item.qty)), stock)
  }

  /** An existing line after `add` merges an item into it: the stored stock is
      replaced only by a stock that is a finite number, and the summed quantity
      is re-clamped against the resulting stock. */
  function MergedLine(l: Line, item: Item): Line {
    var stock := if item.stock.NumberStock? then GetStock(item.stock) else l.stock;
    l.(stock := stock, qty := ClampQty(stock, Plus(Int(l.qty), IncomingQty(item.qty))))
  }

  /** The lines after add(item). */
  function Added(lines: seq<Line>, item: Item): (r: seq<Line>)
    ensures GetStock(item.stock) == 0 ==> r == lines
  {
    if GetStock(item.stock) == 0 then lines
    else match Find(lines, ItemKey(item))
      case Some(j) => lines[j := MergedLine(lines[j], item)]
      case None => lines + [NewLine(item)]
  }

  /** add keeps the bag invariant. */
  lemma AddKeepsWellFormed(lines: seq<Line>, item: Item)
    requires WellFormed(lines)
    ensures WellFormed(Added(lines, item))
  {
    var r := Added(lines, item);
    if GetStock(item.stock) != 0 {
      match Find(lines, ItemKey(item))
      case Some(j) =>
        assert forall i :: 0 <= i < |r| ==> KeyOf(r[i]) == KeyOf(lines[i]);
      case None =>
        assert forall i :: 0 <= i < |lines| ==> r[i] == lines[i];
    }
  }

  /** add with a key already in the bag: the same number of lines, the line
      with that key holds the re-clamped sum, and no other line changes. */
  lemma AddExistingKey(lines: seq<Line>, item: Item, j: nat)
    requires WellFormed(lines)
    requires GetStock(item.stock) != 0
    requires j < |lines| && KeyOf(lines[j]) == ItemKey(item)
    ensures |Added(lines, item)| == |lines|
    ensures forall i :: 0 <= i < |lines| && i != j ==> Added(lines, item)[i] == lines[i]
    ensures forall i :: 0 <= i < |lines| && KeyOf(Added(lines, item)[i]) == ItemKey(item) ==> i == j
    ensures Added(lines, item)[j] == lines[j].(stock := Added(lines, item)[j].stock, qty := Added(lines, item)[j].qty)
    ensures Added(lines, item)[j].stock == (if item.stock.NumberStock? then GetStock(item.stock) else lines[j].stock)
    ensures Added(lines, item)[j].qty
         == ClampQty(Added(lines, item)[j].stock, Plus(Int(lines[j].qty), IncomingQty(item.qty)))
  {
    var f := Find(lines, ItemKey(item));
    assert f.Some?;
    assert KeyOf(lines[f.value]) == KeyOf(lines[j]);
    assert f.value == j;
  }

  /** add with a new key appends exactly one line, whose quantity is at least 1. */
  lemma AddNewKey(lines: seq<Line>, item: Item)
    requires GetStock(item.stock) != 0
    requires forall i :: 0 <= i < |lines| ==> KeyOf(lines[i]) != ItemKey(item)
    ensures Added(lines, item) == lines + [NewLine(item)]
    ensures 1 <= NewLine(item).qty <= Min(NewLine(item).stock, MaxPerLine)
  {
  }

  /** Adding the same item twice to a bag that lacked its key gives one line
      whose quantity is the clamped sum of both requests, for any stock the
      cart reads as in stock (an unreadable stock counts as one unit). */
  lemma AddTwiceMerges(lines: seq<Line>, item: Item, q1: int, q2: int)
    requires WellFormed(lines)
    requires forall i :: 0 <= i < |lines| ==> KeyOf(lines[i]) != ItemKey(item)
    requires GetStock(item.stock) >= 1
    requires q1 >= 1 && q2 >= 1
    ensures var once := Added(lines, item.(qty := Some(Int(q1))));
            var twice := Added(once, item.(qty := Some(Int(q2))));
            && |twice| == |lines| + 1
            && twice[..|lines|] == lines
            && KeyOf(twice[|lines|]) == ItemKey(item)
            && twice[|lines|].qty == Min(q1 + q2, Min(GetStock(item.stock), MaxPerLine))
  {
    var a := item.(qty := Some(Int(q1)));
    var b := item.(qty := Some(Int(q2)));
    var once := Added(lines, a);
    AddNewKey(lines, a);
    assert once == lines + [NewLine(a)];
    AddKeepsWellFormed(lines, a);
    AddExistingKey(once, b, |lines|);
    assert once[..|lines|] == lines;
  }

  /** Scenario: stock 3, two adds of 2 leave one line of quantity 3. */
  lemma AddTwiceClampsToStock(item: Item)
    requires item.stock == NumberStock(3)
    ensures var once := Added([], item.(qty := Some(Int(2))));
            var twice := Added(once, item.(qty := Some(Int(2))));
            |twice| == 1 && twice[0].qty == 3
  {
    AddTwiceMerges([], item, 2, 2);
  }

  // ---- removeAt and updateQty

  /** `state.items.filter(i => key(i) !== k)`. */
  function Without(lines: seq<Line>, k: string): (r: seq<Line>)
    ensures |r| <= |lines|
    ensures forall i :: 0 <= i < |r| ==> KeyOf(r[i]) != k
  {
    if lines == [] then []
    else (if KeyOf(lines[0]) != k then [lines[0]] else []) + Without(lines[1..], k)
  }

  /** A line survives removeAt exactly when it was there and its key differs. */
  lemma {:induction false} WithoutMembers(lines: seq<Line>, k: string)
    ensures forall l :: l in Without(lines, k) <==> l in lines && KeyOf(l) != k
  {
    if lines != [] {
      WithoutMembers(lines[1..], k);
      assert lines == [lines[0]] + lines[1..];
    }
  }

  /** Removing a key that is absent changes nothing. */
  lemma {:induction false} WithoutAbsent(lines: seq<Line>, k: string)
    requires KeyAbsent(lines, k)
    ensures Without(lines, k) == lines
  {
    if lines != [] {
      WithoutAbsent(lines[1..], k);
      assert [lines[0]] + lines[1..] == lines;
    }
  }

  /** A second removeAt of the same key is a no-op. */
  lemma WithoutIdempotent(lines: seq<Line>, k: string)
    ensures Without(Without(lines, k), k) == Without(lines, k)
  {
    WithoutAbsent(Without(lines, k), k);
  }

  /** With unique keys, removing the key of line j drops exactly that line and
      keeps every other line in order. */
  lemma {:induction false} WithoutUniqueKey(lines: seq<Line>, j: nat)
    requires KeysUnique(lines)
    requires j < |lines|
    ensures Without(lines, KeyOf(lines[j])) == lines[..j] + lines[j + 1..]
  {
    var k := KeyOf(lines[j]);
    var pre, post := lines[..j], lines[j + 1..];
    assert lines == pre + ([lines[j]] + post);
    OthersLackKey(lines, j);
    WithoutAbsent(pre, k);
    WithoutAbsent(post, k);
    WithoutConcat(pre, [lines[j]] + post, k);
    WithoutConcat([lines[j]], post, k);
    assert Without([lines[j]], k) == [] by {
      assert [lines[j]][1..] == [];
    }
    assert [] + post == post;
  }

  /** No line holds key k. */
  predicate KeyAbsent(lines: seq<Line>, k: string) {
    forall i :: 0 <= i < |lines| ==> KeyOf(lines[i]) != k
  }

  /** With unique keys, no line before or after line j shares its key. */
  lemma OthersLackKey(lines: seq<Line>, j: nat)
    requires KeysUnique(lines)
    requires j < |lines|
    ensures KeyAbsent(lines[..j], KeyOf(lines[j]))
    ensures KeyAbsent(lines[j + 1..], KeyOf(lines[j]))
  {
    var pre, post := lines[..j], lines[j + 1..];
    forall i | 0 <= i < |pre| ensures KeyOf(pre[i]) != KeyOf(lines[j]) {
      assert pre[i] == lines[i];
    }
    forall i | 0 <= i < |post| ensures KeyOf(post[i]) != KeyOf(lines[j]) {
      assert post[i] == lines[j + 1 + i];
    }
  }

  /** removeAt distributes over concatenation. */
  lemma {:induction false} WithoutConcat(a: seq<Line>, b: seq<Line>, k: string)
    ensures Without(a + b, k) == Without(a, k) + Without(b, k)
  {
    if a == [] {
      assert a + b == b;
    } else {
      assert (a + b)[1..] == a[1..] + b;
      WithoutConcat(a[1..], b, k);
    }
  }

  /** Dropping one line keeps the bag invariant. */
  lemma DropKeepsWellFormed(lines: seq<Line>, j: nat)
    requires WellFormed(lines) && j < |lines|
    ensures WellFormed(lines[..j] + lines[j + 1..])
  {
    var r := lines[..j] + lines[j + 1..];
    assert forall i :: 0 <= i < |r| ==> r[i] == lines[if i < j then i else i + 1];
  }

  /** removeAt keeps the bag invariant, leaves no line with that key, and
      keeps the other lines in their order. */
  lemma RemoveKeepsWellFormed(lines: seq<Line>, k: string)
    requires WellFormed(lines)
    ensures WellFormed(Without(lines, k))
    ensures Find(Without(lines, k), k).None?
    ensures Find(lines, k).None? ==> Without(lines, k) == lines
    ensures Find(lines, k).Some? ==>
      Without(lines, k) == lines[..Find(lines, k).value] + lines[Find(lines, k).value + 1..]
  {
    match Find(lines, k)
    case None =>
      WithoutAbsent(lines, k);
    case Some(j) =>
      WithoutUniqueKey(lines, j);
      DropKeepsWellFormed(lines, j);
  }

  /** The lines after updateQty(k, q). */
  function Updated(lines: seq<Line>, k: string, q: JsNumber): (r: seq<Line>)
    ensures Find(lines, k).None? ==> r == lines
  {
    match Find(lines, k)
    case None => lines
    case Some(j) =>
      if q == NaN || q == Int(0) then Without(lines, k)
      else lines[j := lines[j].(qty := ClampQty(lines[j].stock, q))]
  }

  /** updateQty keeps the bag invariant; a zero or unreadable quantity removes
      the line, any other sets only that line's quantity, re-clamped. */
  lemma UpdateKeepsWellFormed(lines: seq<Line>, k: string, q: JsNumber)
    requires WellFormed(lines)
    ensures WellFormed(Updated(lines, k, q))
    ensures (q == NaN || q == Int(0)) ==> Updated(lines, k, q) == Without(lines, k)
    ensures Find(lines, k).Some? && q != NaN && q != Int(0) ==>
      var j := Find(lines, k).value;
      && |Updated(lines, k, q)| == |lines|
      && Updated(lines, k, q)[j] == lines[j].(qty := ClampQty(lines[j].stock, q))
      && (forall i :: 0 <= i < |lines| && i != j ==> Updated(lines, k, q)[i] == lines[i])
  {
    if q == NaN || q == Int(0) {
      RemoveKeepsWellFormed(lines, k);
      if Find(lines, k).None? {
        WithoutAbsent(lines, k);
      }
    } else if Find(lines, k).Some? {
      var j := Find(lines, k).value;
      var r := Updated(lines, k, q);
      assert forall i :: 0 <= i < |r| ==> KeyOf(r[i]) == KeyOf(lines[i]);
      assert LineOk(r[j]);
    }
  }

  // ---- checkout

  /** Every line's quantity is within its stock. */
  predicate InStock(lines: seq<Line>) {
    forall i :: 0 <= i < |lines| ==> lines[i].qty <= lines[i].stock
  }

  /** Every line has a price id. */
  predicate Purchasable(lines: seq<Line>) {
    forall i :: 0 <= i < |lines| ==> lines[i].stripePriceId != ""
  }

  /** The request items, in bag order. */
  function OrderItems(lines: seq<Line>): (r: seq<OrderItem>)
    ensures |r| == |lines|
    ensures forall i :: 0 <= i < |lines| ==> r[i] == OrderItem(lines[i].stripePriceId, lines[i].qty)
  {
    seq(|lines|, i requires 0 <= i < |lines| => OrderItem(lines[i].stripePriceId, lines[i].qty))
  }

  /** The in-memory bag. */
  class Cart {
    var items: seq<Line>

    ghost predicate Valid()
      reads this
    {
      WellFormed(items)
    }

    constructor ()
      ensures Valid() && items == []
    {
      items := [];
    }

    function Count(): (n: int)
      reads this
      ensures Valid() ==> |items| <= n <= MaxPerLine * |items|
    {
      if AllLinesOk(items) then CountBounds(items); SumQty(items) else SumQty(items)
    }

    /** subtotal(): positive for a non-empty valid bag of positive prices. */
    function Subtotal(): (r: int)
      reads this
      ensures Valid() && (forall i :: 0 <= i < |items| ==> items[i].price > 0) ==> r >= 0
      ensures Valid() && (forall i :: 0 <= i < |items| ==> items[i].price > 0) && items != [] ==> r > 0
    {
      if AllLinesOk(items) && (forall i :: 0 <= i < |items| ==> items[i].price > 0) then
        SubtotalPositive(items);
        SumPrice(items)
      else
        SumPrice(items)
    }

    /** add(item): returns false when the item is out of stock (the toast). */
    method Add(item: Item) returns (added: bool)
      requires Valid()
      modifies this
      ensures Valid()
      ensures added <==> GetStock(item.stock) != 0
      ensures items == Added(old(items), item)
    {
      AddKeepsWellFormed(items, item);
      var incomingQty := IncomingQty(item.qty);
      var stock := GetStock(item.stock);
      if stock == 0 {
        return false;
      }
      var k := ItemKey(item);
      var exist := Find(items, k);
      if exist.Some? {
        var j := exist.value;
        var line := items[j];
        var newStock := if item.stock.NumberStock? then stock else line.stock;
        var desired := Plus(Int(line.qty), incomingQty);
        items := items[j := line.(stock := newStock, qty := ClampQty(newStock, desired))];
      } else {
        var qty := ClampQty(stock, incomingQty);
        items := items + [Line(item.id, item.size, item.title, item.price, item.stripePriceId, qty, stock)];
      }
      added := true;
    }

    method RemoveAt(k: string)
      requires Valid()
      modifies this
      ensures Valid()
      ensures items == Without(old(items), k)
    {
      RemoveKeepsWellFormed(items, k);
      items := Without(items, k);
    }

    method UpdateQty(k: string, q: JsNumber)
      requires Valid()
      modifies this
      ensures Valid()
      ensures items == Updated(old(items), k, q)
    {
      UpdateKeepsWellFormed(items, k, q);
      var it := Find(items, k);
      if it.None? {
        return;
      }
      if q == NaN || q == Int(0) {
        RemoveAt(k);
        return;
      }
      var j := it.value;
      items := items[j := items[j].(qty := ClampQty(items[j].stock, q))];
    }

    /** The guard and decision part of checkout: which notice ends it, or the
        request it sends. */
    method Checkout() returns (r: CheckoutOutcome)
      ensures r.NothingToSend? <==> items == []
      ensures r.InsufficientStock? <==> items != [] && !InStock(items)
      ensures r.InsufficientStock? ==>
        exists j :: 0 <= j < |items| && items[j].qty > items[j].stock
          && InStock(items[..j])
          && r == InsufficientStock(items[j].title, items[j].stock)
      ensures r.NotPurchasable? <==> items != [] && InStock(items) && !Purchasable(items)
      ensures r.EmptyBag? <==> items != [] && InStock(items) && Purchasable(items) && SumPrice(items) <= 0
      ensures r.Send? ==> InStock(items) && Purchasable(items) && SumPrice(items) > 0
      ensures r.Send? ==> r.order == OrderItems(items) && r.subtotalCents == SumPrice(items)
      ensures Valid() ==> !r.InsufficientStock?
    {
      if |items| == 0 {
        return NothingToSend;
      }
      var i := 0;
      while i < |items|
        invariant 0 <= i <= |items|
        invariant InStock(items[..i])
      {
        var stock := items[i].stock;
        if items[i].qty > stock {
          return InsufficientStock(items[i].title, stock);
        }
        assert items[..i + 1] == items[..i] + [items[i]];
        i := i + 1;
      }
      assert items[..i] == items;
      var order := OrderItems(items);
      if exists n :: 0 <= n < |order| && order[n].price == "" {
        return NotPurchasable;
      }
      var subtotal := Subtotal();
      if subtotal <= 0 {
        return EmptyBag;
      }
      r := Send(order, subtotal);
    }
  }
}
