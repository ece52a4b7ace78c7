# einHaru storefront: a Dafny model of the cart, checkout and inventory core

This project models the order path of the einHaru shop, a small storefront that
sells through Stripe Checkout:

- **the client bag** (`cart.js`): the stock policy (`getStock`, `clampQty`),
  the list of lines keyed by `id::size`, and the mutators `add`, `removeAt` and
  `updateQty`, the `count` and `subtotal` reductions, and the guards `checkout`
  runs before it builds an order request;
- **session creation** (the `/create-checkout-session` route of `server.js` and
  the serverless `netlify/functions/create-checkout-session.js`, which hold the
  same code): item normalisation, the 400 errors, one price lookup per distinct
  price id, the subtotal in cents, the single-item fallback, the shipping
  options (standard 5 EUR, plus free shipping from 100 EUR), and thrown errors
  becoming a 500;
- **the server's inventory** (`server.js`): the processed-session ledger, the
  stock decrement from a completed session's line items, and the webhook that
  checks the ledger first and marks the session processed only after the stock
  was updated;
- **the serverless confirmation** (`netlify/functions/confirm-session-inventory.js`):
  the session id from the query string, the paid check, the purchased price ids,
  the two skip outcomes, the merge into the `sold.json` map, and every thrown
  error becoming a 200 reply that carries the error.

Modules, one per file:

| file | module | models |
|---|---|---|
| base.dfy | `Base` | `Option`, `Result`, `Max`, `Min`, `NoDuplicates` |
| cart_store.dfy | `CartStore` | `cart.js`; the bag is the class `Cart` whose `items` field the mutators reassign |
| stripe_data.dfy | `StripeData` | listed line items and the two ways the handlers read a price id from them |
| checkout_session.dfy | `CheckoutSession` | the create-checkout-session logic shared by both deployments |
| netlify_checkout.dfy | `NetlifyCheckout` | the serverless handler around it (method check, body parsing) |
| server.dfy | `Server` | the JSON files as the class `ServerFiles`, stock decrement in place on an array, the webhook |
| confirm_inventory.dfy | `ConfirmInventory` | the confirmation handler, returning its reply and the trace of calls it makes |

Conventions of the model:

- Money is integer cents.
- JavaScript's `Number(...)` is `JsNumber = Int(n) | NaN`.
- A missing or falsy string field (a price id, a title, a query parameter) is the empty string.
- The payment provider's replies and the storage reads are method parameters.
- The confirmation handler reports its calls as a list of `Effect`s.

## Model

| member | source | states |
|---|---|---|
| CartStore.GetStock | cart.js:9-12 | the stock is 0 exactly when it reads as a number at most 0; a positive number is kept; an unreadable stock counts as one unit |
| CartStore.ClampQty | cart.js:13-17 | 0 exactly when the stock is 0; otherwise between 1 and min(stock, 9); an in-range request is kept, a larger one becomes the cap, and zero, negative or NaN becomes 1 |
| CartStore.ClampQtyMonotone | cart.js:13-17 | asking for more never yields a smaller quantity, for any two integer requests |
| CartStore.Key | cart.js:24 | the key has the length of id, "::" and size together |
| CartStore.KeyParts | cart.js:24 | the key is the id, then "::", then the size |
| CartStore.IncomingQty | cart.js:32 | a falsy quantity requests one unit; a truthy one is read as a number, so a text "0" requests 0 |
| CartStore.Find | cart.js:38 | the index found is the first line with the key; none exactly when no line has it |
| CartStore.SumQty | cart.js:27 | non-negative quantities give a non-negative count; one line counts its quantity |
| CartStore.SumPrice | cart.js:28 | non-negative quantities and prices give a non-negative subtotal; one line gives quantity times price |
| CartStore.Added | cart.js:31-54 | an item with stock 0 leaves the bag unchanged (the other branches are stated by AddExistingKey and AddNewKey) |
| CartStore.AddKeepsWellFormed | cart.js:31-54 | after `add`, keys stay unique and every line keeps 1 <= qty <= min(stock, 9) |
| CartStore.AddExistingKey | cart.js:40-47 | adding an existing key changes only that line, and of that line only its stock and quantity: the stock is refreshed only for a finite-number stock, and the quantity becomes the clamped sum |
| CartStore.AddNewKey | cart.js:48-52 | adding a new key appends one line whose quantity is clamped into [1, min(stock, 9)] |
| CartStore.AddTwiceMerges | cart.js:31-54 | two adds of the same key, with any positive requests and any stock read as in stock (an unreadable NaN stock counts as 1), leave one line whose quantity is min(q1 + q2, stock read, 9) |
| CartStore.AddTwiceClampsToStock | cart.js:31-54 | with stock 3, adding 2 twice gives a single line of quantity 3 |
| CartStore.Without | cart.js:56-59 | the lines left by `removeAt` are no more than before and none has the removed key |
| CartStore.WithoutMembers | cart.js:56-59 | a line survives `removeAt` exactly when it was there and its key differs |
| CartStore.WithoutAbsent | cart.js:56-59 | removing an absent key changes nothing |
| CartStore.WithoutIdempotent | cart.js:56-59 | removing the same key twice is removing it once |
| CartStore.WithoutUniqueKey | cart.js:56-59 | with unique keys, removing a line's key drops exactly that line and keeps the order of the others |
| CartStore.DropKeepsWellFormed | cart.js:56-59 | dropping one line keeps keys unique and quantities in range |
| CartStore.RemoveKeepsWellFormed | cart.js:56-59 | after `removeAt` the bag stays well formed and the key is gone |
| CartStore.Updated | cart.js:61-63 | updating a missing key changes nothing |
| CartStore.UpdateKeepsWellFormed | cart.js:61-69 | a zero or NaN quantity removes the line; any other value changes only the line's quantity, to the clamped value, and leaves the other lines alone |
| CartStore.SumQtyAppend | cart.js:27 | the item count of a concatenation is the sum of the counts |
| CartStore.SumPriceAppend | cart.js:28 | the subtotal of a concatenation is the sum of the subtotals |
| CartStore.CountBounds | cart.js:27 | a bag with lines in range counts between one and nine units per line |
| CartStore.SubtotalPositive | cart.js:28 | with positive prices, a non-empty bag has a positive subtotal |
| CartStore.OrderItems | cart.js:83 | the order has one entry per line, carrying its price id and quantity |
| CartStore.Cart.constructor | cart.js:5 | the bag starts empty |
| CartStore.Cart.Count | cart.js:27 | the count of a valid bag lies between its number of lines and nine times that |
| CartStore.Cart.Subtotal | cart.js:28 | a valid bag of positive prices has a non-negative subtotal, positive when the bag is not empty |
| CartStore.Cart.Add | cart.js:31-54 | the new lines are `Added(old lines, item)`; returns whether the item was in stock; the bag stays well formed |
| CartStore.Cart.RemoveAt | cart.js:56-59 | the new lines are `Without(old lines, key)` |
| CartStore.Cart.UpdateQty | cart.js:61-69 | the new lines are `Updated(old lines, key, q)` |
| CartStore.Cart.Checkout | cart.js:71-90 | each outcome holds exactly when its guard fires, in the source's order: empty bag, a line over its stock, a line without a price id, a non-positive subtotal; otherwise it sends one order entry per line with the subtotal; a well-formed bag never fails the stock guard |
| StripeData.WebhookPriceId | server.js:93 | the id used as a decrement key is never empty |
| StripeData.ExpandedPriceId | netlify/functions/confirm-session-inventory.js:47 | an id exactly for an expanded price object with a non-empty id |
| CheckoutSession.ClampToLine | server.js:156 | the quantity is clamped into [1, 9]; an in-range value is kept |
| CheckoutSession.Normalize | server.js:154-157 | the price is `price`, else `stripePriceId`; the quantity is `quantity`, else `qty`, else 1, clamped into [1, 9] |
| CheckoutSession.NormalizeAll | server.js:154-157 | one normalised entry per posted item, in order |
| CheckoutSession.PricesOf | server.js:162 | the price ids of the normalised items, in order |
| CheckoutSession.Unique | server.js:162 | no duplicates, the same set of ids, ordered by first occurrence in the input |
| CheckoutSession.UniqueKeepsFirstOccurrence | server.js:162 | for any two different ids x and y, the distinct ids of x, y, x are x, y |
| CheckoutSession.PriceMap | server.js:163-170 | the price map has exactly the looked-up ids as keys |
| CheckoutSession.FetchUnitAmounts | server.js:164-170 | every distinct id is retrieved once, in order, and all of them priced gives the price map; otherwise the loop stops at the first id without a unit amount, giving a 400 or the thrown error |
| CheckoutSession.Subtotal | server.js:172 | non-negative unit amounts and quantities give a non-negative subtotal; one line gives unit amount times quantity |
| CheckoutSession.SubtotalBounds | server.js:172 | the subtotal lies between the sum of unit amounts and nine times it |
| CheckoutSession.ShippingOptions | server.js:192-218 | standard 500-cent shipping always comes first; a free option is added exactly when the subtotal is at least 10000 cents |
| CheckoutSession.SubtotalAppend | server.js:172 | the subtotal of concatenated items is the sum of their subtotals |
| CheckoutSession.SubtotalGrows | server.js:172 | adding items never lowers the subtotal |
| CheckoutSession.FreeShippingKept | server.js:192 | an order that qualifies for free shipping still qualifies with more items |
| CheckoutSession.PricedLines | server.js:173 | the session lines are the normalised price and quantity pairs |
| CheckoutSession.CustomerEmail | server.js:224 | `customer_email`, else `email`, else no email; never an empty one |
| CheckoutSession.Planned | server.js:147-218 | a cart request goes ahead exactly when no price id is missing and every distinct id has a unit amount; then it has one line per posted item; a single item needs a title and a price, which is then the subtotal; the shipping options always follow the subtotal |
| CheckoutSession.PlannedNeedsEveryPrice | server.js:151-170 | a cart request goes ahead exactly when every posted item has a price id with a unit amount |
| CheckoutSession.Prepare | server.js:147-218 | a missing price id gives 400 before any lookup; a cart whose prices all have unit amounts gives the lines, the subtotal and the shipping options; otherwise the first unpriced id gives 400 "Invalid Stripe Price: id" or its thrown error; the single item needs a title and a numeric price |
| CheckoutSession.CreateSession | server.js:131-243 | status 200 exactly when the request was built and the session created, replying with url, id, subtotal and the free-shipping flag; a missing price id and a bad single item give their 400s; the first id without a unit amount gives 400 "Invalid Stripe Price: id", or 500 with its thrown message; a failed creation gives 500 with `e.message` or "Failed to create session"; the request sent is `Planned` |
| CheckoutSession.ThrownMessage | server.js:241 | the error's message, else "Failed to create session" |
| NetlifyCheckout.Handler | netlify/functions/create-checkout-session.js:5-106 | a method other than POST gives 405; an unparsable body gives 500; no body gives the single-item 400; a parsed body gets the session logic's answers: both 400s, the invalid-price 400 or thrown 500 at the first unpriced id, the 500 for a failed creation, and the request `Planned` |
| Server.ReadJSON | server.js:63-70 | a missing file reads as nothing; any other failure propagates |
| Server.LoadLedger | server.js:74-76 | a missing ledger is empty; an unreadable one is an error |
| Server.PurchasedQtyAppend | server.js:91-97 | the quantity purchased of a price over concatenated items adds up |
| Server.PurchasedQtyOrderFree | server.js:91-97 | the order of the line items does not change the quantities |
| Server.PurchasedQty | server.js:91-96 | no quantity is counted for an empty price id or for a price no line item names; a single line item counts its quantity exactly when its price id is the one asked for |
| Server.AggregateQuantities | server.js:91-97 | the map holds, for every price id, the total quantity purchased, and no empty key |
| Server.Restocked | server.js:99-106 | the catalogue keeps its length |
| Server.AfterPurchase | server.js:101-105 | only the stock changes; nothing happens for a zero decrement; otherwise the stock becomes max(0, stock - decrement), written only when it differs |
| Server.RestockedEffect | server.js:99-106 | only stock changes: a purchased product ends at max(0, stock - purchased), any other product is untouched |
| Server.RestockedInRange | server.js:103-105 | with non-negative quantities, stock never rises and never goes negative |
| Server.PurchasedQtyNonNegative | server.js:94-96 | non-negative line quantities give a non-negative total |
| Server.RestockingTwiceDecrementsTwice | server.js:99-106 | applying the same items again decrements again (5, 3, 1), which is why the ledger is needed |
| Server.ApplyPurchases | server.js:99-106 | each product in place becomes its post-purchase value; `changed` exactly when some product changed |
| Server.ServerFiles.constructor | server.js:19-20 | the two files hold the given states |
| Server.ServerFiles.IsProcessed | server.js:77-79 | an error exactly when the ledger is unreadable; otherwise whether the id is listed |
| Server.ServerFiles.MarkProcessed | server.js:80-86 | appends the id only when absent; afterwards the id is processed, and a ledger without duplicates keeps none; a failing write of a new id is an error that leaves the ledger as it was |
| Server.ServerFiles.UpdateStockFromLineItems | server.js:87-114 | a products file that cannot be read is an error; otherwise the result tells whether stock changed, and the file is rewritten to `Restocked` only then; a failing rewrite is an error that leaves the file as it was |
| Server.ServerFiles.HandleWebhookEvent | server.js:284-320 | other events and already processed sessions change nothing; a failed listing or stock update gives 500 and leaves the ledger alone; a failing ledger write gives 500 with stock already decremented and the session not recorded; otherwise stock is decremented and then the session recorded |
| Server.ReplayedWebhookDecrementsOnce | server.js:286-313 | when no write fails, the same completed session delivered twice decrements stock once, whether the ledger file exists or not |
| Server.LostLedgerWriteDecrementsTwice | server.js:305-319 | when the ledger write of the first delivery fails, it answers 500 and the successful redelivery decrements the same purchase a second time |
| ConfirmInventory.SessionIdOf | netlify/functions/confirm-session-inventory.js:24-26 | `id` when given, else `session_id`; empty exactly when both are missing |
| ConfirmInventory.LowerAscii | netlify/functions/confirm-session-inventory.js:37 | lower-cases each character, keeping the length |
| ConfirmInventory.IsPaid | netlify/functions/confirm-session-inventory.js:37 | paid exactly for a four-letter status that lower-cases to "paid" |
| ConfirmInventory.PaidIgnoresCase | netlify/functions/confirm-session-inventory.js:37 | "paid", "PAID" and "Paid" are paid; "", "unpaid" and "no_payment_required" are not |
| ConfirmInventory.PurchasedPriceIds | netlify/functions/confirm-session-inventory.js:47 | exactly the non-empty ids of expanded prices, at most one per item |
| ConfirmInventory.PurchasedPriceIdsAppend | netlify/functions/confirm-session-inventory.js:47 | the ids of concatenated item lists concatenate |
| ConfirmInventory.Merged | netlify/functions/confirm-session-inventory.js:61-62 | the keys are the old keys plus the ids; every id is sold; other entries are unchanged |
| ConfirmInventory.MergeSold | netlify/functions/confirm-session-inventory.js:62 | the loop of assignments produces `Merged` |
| ConfirmInventory.MergedIdempotent | netlify/functions/confirm-session-inventory.js:61-63 | merging the same ids again changes nothing |
| ConfirmInventory.MergedConcat | netlify/functions/confirm-session-inventory.js:61-63 | merging in two batches equals merging once |
| ConfirmInventory.MergedOrderFree | netlify/functions/confirm-session-inventory.js:62 | only the set of ids matters |
| ConfirmInventory.SoldStaysSold | netlify/functions/confirm-session-inventory.js:61-63 | an id marked sold stays sold through any later confirmations |
| ConfirmInventory.MergeAll | netlify/functions/confirm-session-inventory.js:61-63 | a run of confirmations keeps every key and only adds keys that some confirmation marked |
| ConfirmInventory.Confirm | netlify/functions/confirm-session-inventory.js:21-87 | no session id gives 400 with no call, every other outcome is a 200; an unpaid session is skipped after exactly the retrieval; no purchased ids skips after exactly the retrieval and the listing; a failed retrieval, listing, store read or write gives the error with the hint, after exactly the calls made so far; success writes `Merged(current, ids)` and replies with the ids |
| ConfirmInventory.ReplayedConfirmation | netlify/functions/confirm-session-inventory.js:58-68 | confirming the same paid session twice writes the same sold map both times and keeps earlier sold ids |

## Left out

- The drawer UI, focus handling, rendering, toasts and `fmt` of `cart.js` are not modelled.
- Persistence to localStorage is not modelled; the bag starts empty. Items loaded from storage are assumed to be well formed, as the mutators require.
- `script.js`, `get-inventory.js`, `hello.js`, `checkout-session.js`, `webhook.js` and the `/checkout-session/:id` and `/health` routes are not part of this model.
- `getItems` (a copy of the lines) is not modelled: it computes nothing.
- Floating-point prices are not modelled. Every price is integer cents, so `Math.round(x * 100)` in `checkout` and in the single-item fallback is left out. Fractional quantities and stocks are also left out (`JsNumber` holds integers only).
- CartStore.Added: the `incoming.qty === 0` branch of `add` is left out. It cannot be reached, because `ClampQty` is 0 only for stock 0, and that case has already returned.
- CartStore.Cart.Checkout: the shipping country, the customer email, the request to the backend and the redirect are left out; the model ends at the order it would send.
- Key injectivity is not modelled: `id::size` may collide for ids containing `::`. The model treats keys as strings, just as the source does.
- CheckoutSession.CreateSession: the fixed session settings are passed through unchanged and are not examined. This covers the allowed countries, the success and cancel URLs, and the origin read from the environment.
- CheckoutSession.CreateSession: the 400 reply is not characterised by its error text alone. A thrown lookup message can share the prefix "Invalid Stripe Price: ".
- Server.ServerFiles.UpdateStockFromLineItems: a products file holding a JSON value that is not an array is not modelled; only a missing file gives the "Cannot read products" error.
- The same method does not model `Number()` of a non-numeric quantity or stock. Stock is an optional integer.
- Server.ServerFiles.HandleWebhookEvent: webhook signature verification is left out (it needs the provider's cryptography), as is a ledger JSON of another shape.
- Concurrent webhook deliveries and races between confirmations are not modelled; each handler runs to completion.
- ConfirmInventory.LowerAscii lower-cases ASCII letters only, not the full Unicode mapping of `toLowerCase`.
- ConfirmInventory.Confirm: the blob store's fallback from automatic to manual configuration is one outcome here: opening or reading the store either succeeds or throws. The `details` field of the error and all logging are left out.
- The `sold.json` map holds booleans. Values of other types are not modelled.
