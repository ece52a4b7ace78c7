/** The serverless confirm-session-inventory handler: after a paid Checkout
    Session it marks every purchased price id as sold in the `sold.json`
    blob of the inventory store.  The payment provider and the blob store
    are parameters; the handler reports the calls it makes as an effect
    trace. */
module ConfirmInventory {
  import opened Base
  import opened StripeData

  const NotPaid := "not_paid"
  const NoLineItems := "no_line_items"
  const Hint := "If this mentions Netlify Blobs config, set NETLIFY_SITE_ID and NETLIFY_BLOBS_TOKEN in Netlify Prod env."

  /** The query string: `id` and `session_id`, "" when absent (a missing
      query string reads as both absent). */
  datatype Query = Query(id: string, sessionId: string)

  /** The fields of a thrown error that the handler copies into its reply. */
  datatype Fault = Fault(message: string, kind: string, code: string, statusCode: Option<int>)

  /** What retrieving the session gave: its payment status ("" when
      missing), or a thrown error. */
  datatype SessionLookup = Retrieved(paymentStatus: string) | RetrieveThrows(fault: Fault)

  /** What listing the session's line items gave (a missing `data` reads as
      no items), or a thrown error. */
  datatype ItemsLookup = ItemsListed(data: seq<LineItem>) | ListThrows(fault: Fault)

  /** Opening the store and reading `sold.json`: the stored object, nothing
      (or a falsy value), or a thrown error. */
  datatype StoreRead = Stored(sold: map<string, bool>) | NothingStored | StoreThrows(fault: Fault)

  /** The calls the handler makes, in order. */
  datatype Effect =
    | RetrieveSession(sessionId: string)
    | ListLineItems(sessionId: string)
    | ReadSold
    | WriteSold(sold: map<string, bool>)

  datatype Reply =
    | MissingSessionId
    | Skipped(reason: string)
    | Marked(ids: seq<string>)
    | Failed(error: Fault, hint: string)

  datatype Response = Response(status: int, reply: Reply)

  /** `qs.id || qs.session_id`: "" when neither is given. */
  function SessionIdOf(qs: Query): (r: string)
    ensures r == "" <==> qs.id == "" && qs.sessionId == ""
    ensures qs.id != "" ==> r == qs.id
    ensures qs.id == "" ==> r == qs.sessionId
  {
    if qs.id != "" then qs.id else qs.sessionId
  }

  function LowerChar(c: char): char {
    if 'A' <= c <= 'Z' then (c as int - 'A' as int + 'a' as int) as char else c
  }

  /** `toLowerCase` on the ASCII letters. */
  function LowerAscii(s: string): (r: string)
    ensures |r| == |s|
    ensures forall i :: 0 <= i < |s| ==> r[i] == LowerChar(s[i])
  {
    if s == [] then [] else [LowerChar(s[0])] + LowerAscii(s[1..])
  }

  /** The session counts as paid when its status, lower-cased, is "paid". */
  predicate IsPaid(paymentStatus: string)
    ensures IsPaid(paymentStatus) ==> |paymentStatus| == 4
    ensures IsPaid(paymentStatus) <==>
      |paymentStatus| == 4 && forall i :: 0 <= i < 4 ==> LowerChar(paymentStatus[i]) == "paid"[i]
  {
    LowerAscii(paymentStatus) == "paid"
  }

  lemma PaidIgnoresCase()
    ensures IsPaid("paid") && IsPaid("PAID") && IsPaid("Paid")
    ensures !IsPaid("") && !IsPaid("unpaid") && !IsPaid("no_payment_required")
  {
    assert LowerAscii("PAID") == "paid";
    assert LowerAscii("Paid") == "paid";
  }

  /** `data.map(x => x.price?.id).filter(Boolean)`: the ids of the expanded
      prices, in order, empty ones dropped. */
  function PurchasedPriceIds(items: seq<LineItem>): (r: seq<string>)
    ensures |r| <= |items|
    ensures forall k :: 0 <= k < |r| ==> r[k] != ""
    ensures forall id :: id in r <==> exists i :: 0 <= i < |items| && ExpandedPriceId(items[i]) == Some(id)
  {
    if items == [] then []
    else
      var rest := PurchasedPriceIds(items[1..]);
      assert forall id :: (exists i :: 0 <= i < |items[1..]| && ExpandedPriceId(items[1..][i]) == Some(id)) <==>
                          (exists i :: 1 <= i < |items| && ExpandedPriceId(items[i]) == Some(id)) by {
        forall id
          ensures (exists i :: 0 <= i < |items[1..]| && ExpandedPriceId(items[1..][i]) == Some(id)) ==>
                  (exists i :: 1 <= i < |items| && ExpandedPriceId(items[i]) == Some(id))
        {
          if i :| 0 <= i < |items[1..]| && ExpandedPriceId(items[1..][i]) == Some(id) {
            assert ExpandedPriceId(items[i + 1]) == Some(id);
          }
        }
      }
      match ExpandedPriceId(items[0])
      case Some(id) => [id] + rest
      case None => rest
  }

  /** The ids of a concatenation are the ids of the parts, concatenated. */
  lemma {:induction false} PurchasedPriceIdsAppend(a: seq<LineItem>, b: seq<LineItem>)
    ensures PurchasedPriceIds(a + b) == PurchasedPriceIds(a) + PurchasedPriceIds(b)
  {
    if a == [] {
      assert a + b == b;
    } else {
      assert (a + b)[1..] == a[1..] + b;
      PurchasedPriceIdsAppend(a[1..], b);
    }
  }

  /** `current` after `current[pid] = true` for every pid of `ids`. */
  function Merged(current: map<string, bool>, ids: seq<string>): (r: map<string, bool>)
    ensures forall k :: k in r <==> k in current || k in ids
    ensures forall k :: k in ids ==> k in r && r[k]
    ensures forall k :: k in current && k !in ids ==> k in r && r[k] == current[k]
  {
    map k | k in current.Keys + (set i | 0 <= i < |ids| :: ids[i]) :: if k in ids then true else current[k]
  }

  /** The loop of the handler, one assignment per purchased id. */
  method MergeSold(current: map<string, bool>, ids: seq<string>) returns (next: map<string, bool>)
    ensures next == Merged(current, ids)
  {
    next := current;
    for i := 0 to |ids|
      invariant next == Merged(current, ids[..i])
    {
      assert ids[..i + 1] == ids[..i] + [ids[i]];
      next := next[ids[i] := true];
    }
    assert ids[..|ids|] == ids;
  }

  /** Merging the same ids a second time changes nothing. */
  lemma MergedIdempotent(current: map<string, bool>, ids: seq<string>)
    ensures Merged(Merged(current, ids), ids) == Merged(current, ids)
  {
  }

  /** Merging in two batches is merging once with all the ids. */
  lemma MergedConcat(current: map<string, bool>, a: seq<string>, b: seq<string>)
    ensures Merged(Merged(current, a), b) == Merged(current, a + b)
  {
    var l := Merged(Merged(current, a), b);
    var r := Merged(current, a + b);
    assert forall k :: k in a + b <==> k in a || k in b;
    assert l.Keys == r.Keys;
  }

  /** Only the ids matter, not their order or repetitions. */
  lemma MergedOrderFree(current: map<string, bool>, a: seq<string>, b: seq<string>)
    requires forall k :: k in a <==> k in b
    ensures Merged(current, a) == Merged(current, b)
  {
    assert Merged(current, a).Keys == Merged(current, b).Keys;
  }

  /** An id once marked sold stays sold through any later merges. */
  lemma {:induction false} SoldStaysSold(current: map<string, bool>, batches: seq<seq<string>>, id: string)
    requires id in current && current[id]
    ensures id in MergeAll(current, batches) && MergeAll(current, batches)[id]
    decreases |batches|
  {
    if batches != [] {
      var next := Merged(current, batches[0]);
      SoldStaysSold(next, batches[1..], id);
    }
  }

  /** The sold map after a sequence of confirmations. */
  function MergeAll(current: map<string, bool>, batches: seq<seq<string>>): (r: map<string, bool>)
    ensures current.Keys <= r.Keys
    ensures forall k :: k in r ==> k in current || exists b :: b in batches && k in b
    decreases |batches|
  {
    if batches == [] then current else MergeAll(Merged(current, batches[0]), batches[1..])
  }

  /** The sold map read from the store, `{}` when nothing is stored. */
  function CurrentSold(store: StoreRead): map<string, bool>
    requires !store.StoreThrows?
  {
    if store.Stored? then store.sold else map[]
  }

  /** exports.handler.  `writeFault` is the error the write of `sold.json`
      throws, if any. */
  method Confirm(qs: Query, session: SessionLookup, listing: ItemsLookup, store: StoreRead,
                 writeFault: Option<Fault>)
    returns (resp: Response, effects: seq<Effect>)
    ensures SessionIdOf(qs) == "" <==> resp == Response(400, MissingSessionId)
    ensures SessionIdOf(qs) == "" ==> effects == []
    ensures resp.status in {200, 400}
    ensures SessionIdOf(qs) != "" ==> 1 <= |effects| && effects[0] == RetrieveSession(SessionIdOf(qs))
    ensures SessionIdOf(qs) != "" ==> resp.status == 200
    ensures SessionIdOf(qs) != "" && session.RetrieveThrows? ==>
      resp == Response(200, Failed(session.fault, Hint)) && |effects| == 1
    ensures SessionIdOf(qs) != "" && session.Retrieved? && IsPaid(session.paymentStatus) && listing.ListThrows? ==>
      resp == Response(200, Failed(listing.fault, Hint)) && |effects| == 2
    ensures && SessionIdOf(qs) != "" && session.Retrieved? && IsPaid(session.paymentStatus)
            && listing.ItemsListed? && PurchasedPriceIds(listing.data) != [] && store.StoreThrows? ==>
              resp == Response(200, Failed(store.fault, Hint)) && |effects| == 3
    ensures resp.reply == Skipped(NotPaid) <==>
      SessionIdOf(qs) != "" && session.Retrieved? && !IsPaid(session.paymentStatus)
    ensures resp.reply == Skipped(NotPaid) ==> effects == [RetrieveSession(SessionIdOf(qs))]
    ensures 1 < |effects| ==> session.Retrieved? && IsPaid(session.paymentStatus) &&
                              effects[1] == ListLineItems(SessionIdOf(qs))
    ensures resp.reply == Skipped(NoLineItems) <==>
      && SessionIdOf(qs) != "" && session.Retrieved? && IsPaid(session.paymentStatus)
      && listing.ItemsListed? && PurchasedPriceIds(listing.data) == []
    ensures resp.reply == Skipped(NoLineItems) ==>
      effects == [RetrieveSession(SessionIdOf(qs)), ListLineItems(SessionIdOf(qs))]
    ensures 2 < |effects| ==> listing.ItemsListed? && PurchasedPriceIds(listing.data) != [] &&
                              effects[2] == ReadSold
    ensures |effects| <= 4
    ensures |effects| == 4 ==>
      && listing.ItemsListed? && !store.StoreThrows?
      && effects[3] == WriteSold(Merged(CurrentSold(store), PurchasedPriceIds(listing.data)))
    ensures resp.reply.Marked? <==> |effects| == 4 && writeFault.None?
    ensures resp.reply.Marked? ==> resp.reply.ids == PurchasedPriceIds(listing.data)
    ensures resp.reply.Failed? ==> resp.status == 200 && resp.reply.hint == Hint
    ensures |effects| == 3 ==> store.StoreThrows? && resp == Response(200, Failed(store.fault, Hint))
    ensures && SessionIdOf(qs) != "" && session.Retrieved? && IsPaid(session.paymentStatus)
            && listing.ItemsListed? && PurchasedPriceIds(listing.data) != [] && !store.StoreThrows? ==>
              |effects| == 4 && resp.reply == (if writeFault.Some? then Failed(writeFault.value, Hint)
                                               else Marked(PurchasedPriceIds(listing.data)))
  {
    var id := SessionIdOf(qs);
    if id == "" {
      return Response(400, MissingSessionId), [];
    }
    effects := [RetrieveSession(id)];
    if session.RetrieveThrows? {
      return Response(200, Failed(session.fault, Hint)), effects;
    }
    if !IsPaid(session.paymentStatus) {
      return Response(200, Skipped(NotPaid)), effects;
    }
    effects := effects + [ListLineItems(id)];
    if listing.ListThrows? {
      return Response(200, Failed(listing.fault, Hint)), effects;
    }
    var purchased := PurchasedPriceIds(listing.data);
    if purchased == [] {
      return Response(200, Skipped(NoLineItems)), effects;
    }
    effects := effects + [ReadSold];
    if store.StoreThrows? {
      return Response(200, Failed(store.fault, Hint)), effects;
    }
    var current := CurrentSold(store);
    var next := MergeSold(current, purchased);
    effects := effects + [WriteSold(next)];
    if writeFault.Some? {
      return Response(200, Failed(writeFault.value, Hint)), effects;
    }
    resp := Response(200, Marked(purchased));
  }

  /** Confirming the same paid session twice (for instance a reloaded
      success page) writes the same sold map both times and marks the same
      ids. */
  method ReplayedConfirmation(qs: Query, status: string, items: seq<LineItem>, sold: map<string, bool>)
    returns (firstWrite: map<string, bool>, secondWrite: map<string, bool>)
    requires SessionIdOf(qs) != "" && IsPaid(status) && PurchasedPriceIds(items) != []
    ensures firstWrite == secondWrite == Merged(sold, PurchasedPriceIds(items))
    ensures forall k :: k in sold && sold[k] ==> k in secondWrite && secondWrite[k]
  {
    var resp1, effects1 := Confirm(qs, Retrieved(status), ItemsListed(items), Stored(sold), None);
    firstWrite := effects1[3].sold;
    var resp2, effects2 := Confirm(qs, Retrieved(status), ItemsListed(items), Stored(firstWrite), None);
    secondWrite := effects2[3].sold;
    MergedIdempotent(sold, PurchasedPriceIds(items));
  }
}
