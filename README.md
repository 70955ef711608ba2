# Destination dashboard: a verified model of its client-side core

This project models the logic of the bar-management dashboard's web client in Dafny and proves what it promises. The dashboard shows live orders, stock and prices. The model covers:

- **The live-order event client** (`useSSE`). It consumes server-sent events as section 9.2 of the WHATWG HTML Living Standard describes. It keeps one stream open while mounted, forwards five event tags to optional handlers, and guards every JSON decode. After a transport error, or a server frame tagged `error`, it closes the stream, reports the error and reconnects once, 5000 ms later.
- **The request layer** (`fetchAPI` and its wrappers), in its current and its older copy:
  - the choice of base URL;
  - the header merge, including the `Authorization: Bearer` header of section 2.1 of RFC 6750;
  - the error message chosen for a non-2xx response;
  - the bearer token the module keeps between calls;
  - the query string of the order list, serialized as `application/x-www-form-urlencoded` (section 5.2 of the WHATWG URL Standard).
- **Formatting:** phone-number grouping and the relative-time label.
- **The stock page and the product tile:**
  - search, filtering and grouping by category;
  - stock clamping;
  - the optimistic cache write and its rollback;
  - price validation and the price dialog;
  - the category icon.
- **The one-time-password page:** the digit filter, the six-digit submit gate, the `loading` bracket and the redirects.
- **The service worker:** install, activate, and the fetch strategy (non-GET requests are left alone, `/api/` goes to the network first, everything else to the cache first). It stores only responses with an ok status, and the Cache interface of the W3C Service Workers specification refuses a 206 among those. An install whose `addAll` rejects fails, and such a worker never activates or handles a fetch. Offline with no cached copy, an `/api/` request gets a 503 (section 15.6.4 of RFC 9110).

## Structure

State that the source changes in place is a `class`:

- `EventStream.LiveOrderClient`: the stream ref, the timer ref and `isConnected`.
- `Api.ApiClient`: the module-level token.
- `ProductCard.PriceDialog`: the dialog's open flag and input.
- `StockPage.ProductCache`: the query cache.
- `VerifyPage.VerifyForm`: the code and `loading`.
- `ServiceWorker.Worker`: the cache storage and the worker's lifecycle phase.

Each method is proved against a pure function of the old state, and the properties are lemmas about those functions. For example, `EventStream.Step` and `Run` are the event client as a state machine, and `ServiceWorker.HandleFetch` is the fetch handler.

Where a class keeps a ghost trace, the trace records, in order, the calls the system makes to things outside it:

- handler calls and logging;
- toasts and navigations;
- opening and closing the stream;
- setting and clearing the timer.

The outside world comes in as parameters:

- The network is an outcome parameter (`Api.HttpOutcome`, `Option<Response>`).
- `JSON.parse` and `parseFloat` are function parameters that return an `Option`.
- The clock is an elapsed-milliseconds argument.
- The browser's own callbacks are method calls.

Shared JavaScript semantics live in `Js`:

- truthiness, `?.` and `??`;
- ASCII `toLowerCase`, `trim` and `includes`;
- integer-to-decimal conversion;
- an order-preserving `Select` (the model of `Array.prototype.filter`) with its lemmas.

## Model

| member | source | states |
|---|---|---|
| EventStream.LiveOrderClient.constructor | web/lib/sse.ts:20-29 | `isConnected` starts false, nothing is open, and the stream URL is the API base URL followed by `/api/admin/events` |
| EventStream.LiveOrderClient.Connect | web/lib/sse.ts:26-29 | a new stream with credentials becomes the current one, and nothing else changes |
| EventStream.LiveOrderClient.Mount | web/lib/sse.ts:84 | mounting opens exactly one stream to the events URL, with credentials, and leaves `isConnected` as it was; the result equals one `Step` |
| EventStream.LiveOrderClient.OnConnectedEvent | web/lib/sse.ts:31-34 | the `connected` listener sets `isConnected` and then calls `onConnected` if it is present, and nothing else |
| EventStream.LiveOrderClient.OnDataEvent | web/lib/sse.ts:36-70 | a decoded payload calls exactly the tag's handler, once, with the decoded value; an undecodable one is only logged; the state is unchanged |
| EventStream.LiveOrderClient.OnEvent | web/lib/sse.ts:31-81 | an event on the current stream runs the listener for its tag, if there is one, a frame tagged `error` runs `onerror`, and the result equals one `Step` |
| EventStream.LiveOrderClient.OnTransportError | web/lib/sse.ts:72-81 | `onerror` leaves the client disconnected, the stream closed and exactly one reconnect pending, and equals one `Step` |
| EventStream.LiveOrderClient.OnTimerFire | web/lib/sse.ts:78-80 | the firing timer reconnects to the same URL, and the timer is no longer pending |
| EventStream.LiveOrderClient.Unmount | web/lib/sse.ts:86-93 | the cleanup closes the open stream and clears the pending timer, after which neither is left |
| EventStream.OpenOnlyWhenClosed | web/lib/sse.ts:26-29 | a callback opens a stream only when none is open, and opens at most one |
| EventStream.Dispatch | web/lib/sse.ts:31-81 | one event on the open stream never changes whether the hook is mounted, and only a frame tagged `error` closes the stream, schedules the reconnect and clears `isConnected` |
| EventStream.Step | web/lib/sse.ts:25-93 | a callback leaves the hook mounted exactly when it is the mount or the hook was mounted and it is not the cleanup; every callback keeps the invariant: while mounted exactly one of "stream open" and "reconnect pending" holds, neither holds after cleanup, and a pending reconnect means not connected |
| EventStream.OnErrorHandler | web/lib/sse.ts:72-81 | `onerror` leaves the hook disconnected with the stream closed and a reconnect pending; it closes the stream first and schedules the 5000 ms reconnect last, with the `onError` call between them only when that handler is registered |
| EventStream.Run | web/lib/sse.ts:25-93 | the invariant holds after any sequence of callbacks |
| EventStream.MountOpens | web/lib/sse.ts:21-29 | the mount effect is exactly one open of the events URL with credentials, and `isConnected` is untouched |
| EventStream.ConnectedEvent | web/lib/sse.ts:31-34 | a `connected` event sets `isConnected`; the handler is called when present and nothing happens when it is absent |
| EventStream.DecodedEventCallsHandler | web/lib/sse.ts:36-70 | for each of the four data tags, a payload that decodes calls the matching handler once with the decoded value, and the state stays |
| EventStream.UndecodableEventOnlyLogs | web/lib/sse.ts:36-70 | a payload that fails to decode calls no handler, only logs, and leaves the connection state unchanged |
| EventStream.UnknownTagIgnored | web/lib/sse.ts:31-81 | a tag with no listener, other than `error`, changes nothing and calls nothing |
| EventStream.ErrorFrameActsAsTransportError | web/lib/sse.ts:72-81 | a server frame tagged `error` on the open stream has exactly the effects of a transport failure: the client ends disconnected, with the stream closed and one reconnect pending |
| EventStream.TransportErrorSchedulesOneReconnect | web/lib/sse.ts:72-81 | the error's effects are, in order, the close, `onError` with "SSE connection error" if registered, and one reconnect at 5000 ms; the client is then disconnected |
| EventStream.SilentAfterUnmount | web/lib/sse.ts:86-94 | after cleanup no callback opens a stream or calls a handler |
| EventStream.UnmountDuringDelay | web/lib/sse.ts:78-92 | unmounting during the reconnect delay cancels the timer, and no stream opens afterwards |
| EventStream.RecoveryCycle | web/lib/sse.ts:72-84 | an error, then the timer, then `connected` brings the client back to an open, connected stream on the same URL |
| EventStream.CallsAppend | web/lib/sse.ts:31-70 | the handler calls of two runs in sequence are the calls of the first followed by the calls of the second |
| EventStream.Expected | web/lib/sse.ts:36-70 | the expected handler calls of a run of events: one per event, each to a registered data handler |
| EventStream.DeliveredInOrder | web/lib/sse.ts:31-70 | on an open stream, events whose handler is registered and whose payload decodes reach their handlers one call each, in arrival order, and the state is unchanged |
| Api.GetApiBaseUrl | web/lib/api.ts:5-10 | the configured URL when set; otherwise the production URL on a `railway.app` host, else `http://localhost:8080`; never empty |
| Api.ErrorOf | web/lib/api.ts:36-38 | a body that is not JSON gives "Request failed", a `null` body gives the TypeError of reading `.error`, and an object without `error` gives `HTTP <status>` |
| Api.Settle | web/lib/api.ts:36-41 | data comes only from a 2xx response with a JSON body and is that body; a non-2xx response throws neither the parse error nor the network error; the network error is thrown exactly when `fetch` rejects |
| Api.TokenOf | web/lib/api.ts:58-59 | a body that is not an object carries no token, and a token is always the string held in `token`, `access_token` or `jwt` |
| Api.OrderParams | web/lib/api.ts:102-104 | at most two pairs, each named `status` or `limit`, each with a non-empty value |
| Api.OrdersEndpoint | web/lib/api.ts:101-107 | every endpoint starts with `/api/admin/orders` |
| UrlForm.Encode | web/lib/api.ts:102-106 | encoding never shortens the text |
| Api.ApiClient.constructor | web/lib/api.ts:12 | the client starts without a token |
| Api.ApiClient.SendsToken | web/lib/api.ts:26 | the token is sent only when one is held and it is not the empty string, both of which JavaScript treats as false |
| Api.ApiClient.SetAuthToken | web/lib/api.ts:14-16 | the held token becomes the given one |
| Api.ApiClient.BuildRequest | web/lib/api.ts:18-34 | URL is base plus endpoint; credentials are always `include`; the header keys are Content-Type and the caller's keys, plus Authorization exactly when a token is held; Content-Type defaults to JSON unless overridden; `Bearer <token>` overrides the caller's Authorization |
| Api.ApiClient.VerifyOtp | web/lib/api.ts:53-63 | the POST body is `{phone, code}`, the result is the settled response, and the token becomes `token ?? access_token ?? jwt` only when that is a string on success, otherwise it is unchanged |
| Api.ApiClient.Logout | web/lib/api.ts:65-71 | the token is cleared only when the logout request succeeds; a failed logout keeps it |
| Api.ApiClient.GetOrders | web/lib/api.ts:101-108 | the order list is a GET with credentials to the base URL plus the built endpoint |
| Api.SettleSuccess | web/lib/api.ts:36-41 | a request yields data exactly when the response is 2xx with a JSON body, and the data is that body |
| Api.ErrorMessages | web/lib/api.ts:36-39 | a non-2xx response throws the body's `error` when truthy, "Request failed" for a non-JSON body, else `HTTP <status>`; a chosen message is never empty |
| Api.StatusInFallback | web/lib/api.ts:38 | the status can be read back from the `HTTP <status>` message |
| Api.TokenPrecedence | web/lib/api.ts:58-61 | the first of `token`, `access_token`, `jwt` that is neither missing nor null decides, and a non-string there means no token |
| Api.OrderParamsSpec | web/lib/api.ts:102-104 | `status` is sent only when non-empty and `limit` only when non-zero, with status first, and the limit is written in decimal |
| Api.QueryMarkIff | web/lib/api.ts:106-107 | the endpoint contains `?` exactly when some parameter is sent |
| Api.BareOrdersEndpoint | web/lib/api.ts:101-107 | with no filter, or with an empty status and a zero limit, the endpoint is the bare `/api/admin/orders` |
| Api.BothFiltersEndpoint | web/lib/api.ts:101-107 | with both filters the endpoint is `/api/admin/orders?status=<status>&limit=<limit>` |
| Api.SerializeTwo | web/lib/api.ts:102-106 | two appended pairs serialize as `n1=v1&n2=v2` when they need no escaping |
| Api.PairExample | web/lib/api.ts:103 | one pair serializes as `name=value` when it needs no escaping |
| Api.LogoutNeedsJsonBody | web/lib/api.ts:65-71 | a 2xx logout without a JSON body throws, so the token stays |
| UrlForm.Utf8 | web/lib/api.ts:102-106 | UTF-8 encodes a character in one to four bytes, each below 256, with one byte exactly for ASCII |
| UrlForm.EncodeChar | web/lib/api.ts:102-106 | unreserved characters stay, a space becomes `+`, and anything else is percent-encoded |
| UrlForm.EncodeUnreserved | web/lib/api.ts:102-106 | a name or value of unreserved characters is written unchanged |
| UrlForm.EncodeHasNoDelimiters | web/lib/api.ts:102-106 | an encoded name or value never contains a raw `&` or `=`, so the pairs stay separable |
| UrlForm.Serialize | web/lib/api.ts:106 | the serialized query is empty exactly when no pair was appended |
| LegacyApi.BuildRequest | lib/api.ts:3-15 | URL is `(configured or http://localhost:8080) + endpoint`; credentials are always `include`; the caller's headers override the JSON Content-Type; no Authorization header is added |
| LegacyApi.BaseUrl | lib/api.ts:3 | the base URL is never empty and equals the current layer's where no browser host is known |
| LegacyApi.ErrorOf | lib/api.ts:17-19 | a body that is not JSON gives "Request failed", and a `null` body gives the TypeError of reading `.error` |
| LegacyApi.Settle | lib/api.ts:17-22 | data comes only from a 2xx response with a JSON body and is that body; a non-2xx response throws the error `ErrorOf` chooses |
| LegacyApi.VerifyOtp | lib/api.ts:34-39 | data comes only from a response with a JSON body and is that body; a rejected `fetch` throws the network error |
| LegacyApi.OrderParams | lib/api.ts:76-78 | the legacy layer appends the same pairs as the current one, and none exactly when the status is absent or empty and the limit absent or zero |
| LegacyApi.OrdersEndpoint | lib/api.ts:75-82 | every endpoint starts with `/api/admin/orders` |
| LegacyApi.SettleAgrees | lib/api.ts:17-22 | responses settle exactly as in the current request layer |
| LegacyApi.ErrorMessages | lib/api.ts:17-20 | a non-2xx response throws the body's `error`, "Request failed" for a non-JSON body, else `HTTP <status>` |
| LegacyApi.VerifyOtpReturnsBody | lib/api.ts:34-39 | `verifyOTP` returns the settled body unchanged and keeps no token |
| LegacyApi.OrdersEndpointAgrees | lib/api.ts:75-81 | the order query is built as in the current layer, and the endpoint is bare exactly when no parameter is sent |
| Utils.FormatOther | web/lib/utils.ts:28-31 | a number not starting with `254` is returned unchanged |
| Utils.FormatPhoneNumber | web/lib/utils.ts:28-31 | other text is returned unchanged; a `254` number comes back exactly four characters longer and starting with `+254` |
| Utils.Phrase | web/lib/utils.ts:42-48 | a relative phrase starts with the count and ends with " ago", and the unit is singular exactly when the count is 1 |
| Utils.TimeAgo | web/lib/utils.ts:34-52 | under 60 000 ms, future times included, the label is "just now"; it is the formatted date exactly from 604 800 000 ms (seven days) on |
| Utils.FormatGroups | web/lib/utils.ts:29 | a `254` number becomes `+` and the groups [0,3), [3,6), [6,9), [9,end) separated by single spaces, with groups past the end empty |
| Utils.UngroupFormat | web/lib/utils.ts:29 | the output is four characters longer, and deleting the `+` and the spaces gives back the number |
| Utils.FormatIdempotent | web/lib/utils.ts:28-31 | formatting twice is formatting once |
| Utils.TimeAgoBuckets | web/lib/utils.ts:34-52 | `timeAgo` agrees with direct bucketing: "just now" under 60 s (future times included), then whole minutes, hours and days singular at exactly 1, and the formatted date from seven days on |
| Utils.BucketCountsPositive | web/lib/utils.ts:41-48 | every count shown is at least 1 and below the next unit |
| LegacyUtils.AgreesWithDashboard | lib/utils.ts:26-32 | the older copy formats every input as the current one does |
| LegacyUtils.FormatPhoneNumber | lib/utils.ts:26-32 | other text is returned unchanged; a `254` number comes back exactly four characters longer and starting with `+254` |
| LegacyUtils.DocumentedExample | lib/utils.ts:27 | `254712345678` becomes `+254 712 345 678` |
| LegacyUtils.BarePrefix | lib/utils.ts:29 | the bare prefix `254` becomes `+254` followed by three spaces |
| LegacyUtils.FormatOther | lib/utils.ts:28-31 | non-`254` input is returned unchanged |
| LegacyUtils.FormatRoundTrip | lib/utils.ts:28-31 | formatting is idempotent, and removing the `+` and the separators recovers a `254` number |
| ProductCard.CategoryEmoji | web/components/dashboard/product-card.tsx:24-34 | the icon is a single character |
| ProductCard.Glyph | web/components/dashboard/product-card.tsx:27-33 | every icon is a single emoji code point in the pictograph blocks U+1F300 to U+1F9FF |
| ProductCard.CategoryRule | web/components/dashboard/product-card.tsx:24-34 | a rule other than the default is one whose keyword occurs in the lower-cased category |
| ProductCard.FirstMatchWins | web/components/dashboard/product-card.tsx:24-34 | the chosen rule's keyword occurs in the lower-cased category, no earlier rule's does, and the default is chosen exactly when no keyword occurs |
| ProductCard.CaseInsensitive | web/components/dashboard/product-card.tsx:25 | a category and its lower-cased form get the same icon |
| ProductCard.EarlierKeywordWins | web/components/dashboard/product-card.tsx:26 | any category containing "beer" gets the beer mug, whatever else it names |
| ProductCard.SharedGlyphs | web/components/dashboard/product-card.tsx:27-33 | whisky and rum share an icon, vodka and gin share one, and all other icons are distinct |
| ProductCard.Increase | web/components/dashboard/product-card.tsx:40-42 | the increase reports this product's id with a larger stock |
| ProductCard.Decrease | web/components/dashboard/product-card.tsx:44-48 | the decrease reports exactly when stock is positive, with this id and a smaller non-negative stock |
| ProductCard.IncreaseThenDecrease | web/components/dashboard/product-card.tsx:40-48 | decreasing after an increase reports the original stock |
| ProductCard.DecreaseThenIncrease | web/components/dashboard/product-card.tsx:40-48 | increasing after a decrease reports the original stock |
| ProductCard.DisabledDecreaseIsSilent | web/components/dashboard/product-card.tsx:44-48 | the decrease button (disabled at line 90) is disabled only where a decrease would report nothing anyway |
| ProductCard.DecreaseDisabled | web/components/dashboard/product-card.tsx:90 | a disabled decrease button always comes with the low-stock badge |
| ProductCard.IsLowStock | web/components/dashboard/product-card.tsx:63 | a product without the low-stock badge can always be decreased |
| ProductCard.LowStockMonotone | web/components/dashboard/product-card.tsx:63 | low stock means fewer than five, which is the same as at most four; a decrease never clears the badge and an increase never sets it |
| ProductCard.AcceptedPrice | web/components/dashboard/product-card.tsx:50-52 | a price is accepted exactly when it parsed and is above zero, and then it is the parsed value |
| ProductCard.PriceDialog.constructor | web/components/dashboard/product-card.tsx:37-38 | the dialog starts closed, with the current price in the input |
| ProductCard.PriceDialog.Rerender | web/components/dashboard/product-card.tsx:36-38 | a new `product` prop changes the price the dialog reads, while the input, kept by `useState`, and the open flag stay |
| ProductCard.PriceDialog.Open | web/components/dashboard/product-card.tsx:58-61 | opening resets the input to the price of the latest render, not the one at creation, and opens the dialog |
| ProductCard.PriceDialog.Edit | web/components/dashboard/product-card.tsx:137 | typing replaces the input and nothing else |
| ProductCard.PriceDialog.Cancel | web/components/dashboard/product-card.tsx:145 | Cancel closes the dialog without reporting a price |
| ProductCard.PriceDialog.Submit | web/components/dashboard/product-card.tsx:50-56 | an accepted price is reported once for this product and closes the dialog; otherwise nothing is reported and the dialog stays as it was |
| StockPage.BlankQueryMatchesAll | web/app/dashboard/stock/page.tsx:13 | a blank or all-whitespace query matches every product |
| StockPage.MatchesSearch | web/app/dashboard/stock/page.tsx:12-19 | a non-blank query matches only when, trimmed, it is no longer than the name, the description or the category |
| StockPage.MatchesSearchIff | web/app/dashboard/stock/page.tsx:14-18 | otherwise a product matches exactly when the trimmed, lower-cased query occurs in its lower-cased name, description or category |
| StockPage.IncludesAt | web/app/dashboard/stock/page.tsx:18 | `includes` holds exactly when the query occurs at some position |
| StockPage.SearchIgnoresSurroundingSpace | web/app/dashboard/stock/page.tsx:13-14 | trimming the query first changes no match |
| StockPage.SearchIgnoresFieldCase | web/app/dashboard/stock/page.tsx:15-17 | lower-casing a product's fields changes no match |
| StockPage.NarrowerQueryKeepsMatch | web/app/dashboard/stock/page.tsx:14-18 | a product that matches a query also matches any query contained in it |
| StockPage.FilteredProducts | web/app/dashboard/stock/page.tsx:98-102 | no product list gives no products; otherwise the result is an order-preserving subsequence of the list, and every product in it matches |
| StockPage.FilteredProductsSpec | web/app/dashboard/stock/page.tsx:98-102 | a product is shown exactly when it is in the list and matches; a blank query shows the whole list, which is what filtering would give too |
| StockPage.SelectNothing | web/app/dashboard/stock/page.tsx:105-111 | a category no product has gets an empty bucket |
| StockPage.GroupByCategory | web/app/dashboard/stock/page.tsx:104-112 | the buckets are keyed by exactly the categories present, and each holds that category's products in list order |
| StockPage.EachProductInOneBucket | web/app/dashboard/stock/page.tsx:104-112 | a product is in a category's bucket exactly when it is listed with that category, and a bucket is non-empty exactly when its category occurs |
| StockPage.NewStock | web/app/dashboard/stock/page.tsx:68 | the new stock is `max(0, stock + delta)`, never negative |
| StockPage.StockRequest | web/app/dashboard/stock/page.tsx:67-70 | a stock change is requested for this product with a non-negative stock |
| StockPage.PageAndCardAgree | web/app/dashboard/stock/page.tsx:67-70 | the page's +1 and -1 request what the tile reports, except at zero stock, where the page requests 0 and the tile reports nothing |
| StockPage.WithStock | web/app/dashboard/stock/page.tsx:39-41 | the optimistic write changes `stock_quantity` only on products with that id; length, order and every other field stay |
| StockPage.WithStockIdempotent | web/app/dashboard/stock/page.tsx:39-41 | writing the same stock twice is writing it once |
| StockPage.FilterSeesStockUpdate | web/app/dashboard/stock/page.tsx:98-102 | filtering after the optimistic write equals writing into the filtered list, since stock plays no part in search |
| StockPage.Optimistic | web/app/dashboard/stock/page.tsx:39-41 | the cache is written only when there is a list, and its length is kept |
| StockPage.Restore | web/app/dashboard/stock/page.tsx:45-46 | rollback puts back the snapshot when there is one and leaves the cache otherwise |
| StockPage.RollbackRestoresSnapshot | web/app/dashboard/stock/page.tsx:37-46 | an optimistic write followed by its rollback leaves the cache exactly as it was |
| StockPage.ProductCache.constructor | web/app/dashboard/stock/page.tsx:27-30 | the cache starts with the fetched list |
| StockPage.ProductCache.OnMutate | web/app/dashboard/stock/page.tsx:35-44 | returns the snapshot taken before the write and makes the optimistic write |
| StockPage.ProductCache.OnError | web/app/dashboard/stock/page.tsx:45-46 | writes the snapshot back |
| StockPage.SavePrice | web/app/dashboard/stock/page.tsx:77-84 | an update is issued only for this product with a price above zero |
| StockPage.SavePriceAgreesWithCard | web/app/dashboard/stock/page.tsx:77-84 | the page issues an update exactly when the tile would accept the price, with the same value |
| StockPage.MisreadFour | web/app/dashboard/stock/page.tsx:88-95 | reading four bytes as Windows-1252 is reading each byte in turn |
| StockPage.Cp1252Samples | web/app/dashboard/stock/page.tsx:88-95 | the Windows-1252 readings of the bytes involved, with 0x8D undefined and therefore dropped |
| StockPage.MisreadEmoji | web/app/dashboard/stock/page.tsx:88-95 | an emoji in U+1F000..U+1FFFF encodes as F0 9F b2 b3, which reads as "ðŸ" followed by the readings of b2 and b3 |
| StockPage.MisreadGlyph | web/app/dashboard/stock/page.tsx:88-95 | each icon the page shows is the tile's icon for the same rule, UTF-8 encoded and read back as Windows-1252 |
| StockPage.AsWrittenIsMisreadIcon | web/app/dashboard/stock/page.tsx:86-96 | the page's icon for any category is the misread form of the tile's icon, never the icon itself, and at least three characters long |
| StockPage.CategoryEmojiAsWritten | web/app/dashboard/stock/page.tsx:86-96 | the page's icon text is at least three characters long and never the tile's icon |
| StockPage.CategoryEmoji | web/app/dashboard/stock/page.tsx:86-96 | the intended page icon follows the same first-match rule as the tile and is a single character |
| VerifyPage.SanitizeCode | web/app/verify/page.tsx:74 | the filtered code is all digits, a subsequence of the typed text, and no longer than it |
| VerifyPage.SanitizeKeepsDigits | web/app/verify/page.tsx:74 | the filter keeps exactly the ASCII digits, in order |
| VerifyPage.SanitizeIdempotent | web/app/verify/page.tsx:74 | every typed digit survives, all-digit text is unchanged, and filtering twice is filtering once |
| VerifyPage.SanitizeAppend | web/app/verify/page.tsx:74 | filtering a paste of two pieces filters each piece |
| VerifyPage.SubmittableCodeIsSixDigits | web/app/verify/page.tsx:74-83 | a code the enabled button can submit is six digits |
| VerifyPage.CanSubmit | web/app/verify/page.tsx:83 | a click on the enabled button always begins by setting `loading` |
| VerifyPage.ErrorToast | web/app/verify/page.tsx:36 | a request-layer message is shown as is when non-empty and as "Invalid OTP code" when empty, so the error toast is never blank; other failures show the engine's message |
| VerifyPage.SubmitEffects | web/app/verify/page.tsx:21-40 | there is always an effect; the error toast alone exactly when the code is not six characters; navigation only after a successful verification |
| VerifyPage.PhoneOf | web/app/verify/page.tsx:13 | a missing parameter gives the empty phone, and a present one gives its value |
| VerifyPage.RedirectEffects | web/app/verify/page.tsx:15-19 | the page redirects to `/login`, once, exactly when the phone is empty |
| VerifyPage.SubmitGate | web/app/verify/page.tsx:24-27 | a code whose length is not six shows the error and does nothing else: no loading and no navigation |
| VerifyPage.LoadingBracket | web/app/verify/page.tsx:29-39 | a six-character code sets `loading` first and clears it last, on success and on failure, and writes it nowhere else |
| VerifyPage.NavigatesOnlyOnSuccess | web/app/verify/page.tsx:31-36 | the dashboard opens exactly when a six-character code was sent and verification answered 2xx with JSON; a rejected code shows the request layer's message |
| VerifyPage.VerifyForm.constructor | web/app/verify/page.tsx:9-13 | the code starts empty, not loading, with the phone from the query string |
| VerifyPage.VerifyForm.CheckPhone | web/app/verify/page.tsx:15-19 | the redirect effect runs and nothing else changes |
| VerifyPage.VerifyForm.OnInputChange | web/app/verify/page.tsx:74 | the code becomes the filtered text |
| VerifyPage.VerifyForm.Submit | web/app/verify/page.tsx:21-40 | no request is made and the token is untouched when the gate refuses; otherwise the `{phone, code}` verification is sent, the effects are those of `SubmitEffects`, `loading` ends false, and the held token becomes the one a successful response carries, if any |
| ServiceWorker.AddAll | web/public/service-worker.js:16-19 | `addAll` stores something exactly when every asset fetch succeeds with an ok status other than 206; it then stores one entry per asset, each the fetched response |
| ServiceWorker.AfterInstall | web/public/service-worker.js:15-19 | after install the current cache exists, whether or not `addAll` succeeded, and keeps every entry it had |
| ServiceWorker.InstallPhase | web/public/service-worker.js:13-22 | the install succeeds exactly when every asset is fetched with a cacheable response; otherwise the worker is redundant |
| ServiceWorker.InstallStoresAssets | web/public/service-worker.js:13-22 | install creates the current cache; a successful install has stored every static asset in it, and a failed one has stored nothing; other caches are untouched and only cacheable responses enter |
| ServiceWorker.AfterActivate | web/public/service-worker.js:25-40 | after activation no cache but the current one is left, and the current one is kept as it was |
| ServiceWorker.ActivateKeepsCurrent | web/public/service-worker.js:28-36 | a cache survives activation exactly when its name is the current one; activating twice is activating once; the ok-only invariant is kept |
| ServiceWorker.NonGetNotIntercepted | web/public/service-worker.js:48-50 | a non-GET request is not answered, not fetched and changes no cache |
| ServiceWorker.StrategyOf | web/public/service-worker.js:47-53 | a request is left alone exactly when it is not a GET, and only `/api/` paths go to the network first |
| ServiceWorker.Put | web/public/service-worker.js:60-62 | a 206 response is never stored |
| ServiceWorker.Store | web/public/service-worker.js:58-62 | storing keeps the cacheable-only invariant, never touches another cache, and changes the storage only by putting a cacheable response under its request |
| ServiceWorker.HandleFetch | web/public/service-worker.js:43-101 | a request goes unanswered exactly when it is not a GET; an answer given without the network is the cached response; a network error only follows a failed fetch |
| ServiceWorker.ApiNetworkFirst | web/public/service-worker.js:53-65 | an `/api/` GET is answered with the network's response, ok or not, and that response is stored exactly when it is ok and not a 206 |
| ServiceWorker.ApiOfflineFallback | web/public/service-worker.js:66-76 | an offline `/api/` GET is answered from the cache when it holds the request, else with a 503 JSON `{"error":"Offline"}` |
| ServiceWorker.CacheFirstHit | web/public/service-worker.js:83-87 | any other GET in the cache is answered from it without contacting the network |
| ServiceWorker.CacheFirstMiss | web/public/service-worker.js:89-97 | on a miss the worker fetches: an ok response other than a 206 is answered and stored, any other response is answered and never stored, and a failed fetch fails the request |
| ServiceWorker.FetchKeepsOnlyOk | web/public/service-worker.js:53-97 | no fetch puts a non-ok or 206 response in the current cache or touches another cache |
| ServiceWorker.Worker.constructor | web/public/service-worker.js:1-10 | a newly parsed worker starts with the given storage |
| ServiceWorker.Worker.Install | web/public/service-worker.js:13-22 | the storage becomes `AfterInstall` of the old storage, and the worker is installed or, when `addAll` rejects, redundant |
| ServiceWorker.Worker.Activate | web/public/service-worker.js:25-40 | only an installed worker activates; deleting the other caches one by one leaves `AfterActivate` of the old storage |
| ServiceWorker.Worker.OnFetch | web/public/service-worker.js:43-101 | only an active worker handles fetches; the answer, whether the network was contacted, and the new storage are those of `HandleFetch` |

The page's own low-stock badge (web/app/dashboard/stock/page.tsx:239) and its disabled -1 button (web/app/dashboard/stock/page.tsx:221) use the same tests as the tile, `ProductCard.IsLowStock` and `ProductCard.DecreaseDisabled`. The disabled button means the zero-stock case of `StockPage.PageAndCardAgree` cannot be reached from the page's buttons.

## Left out

- The transport: real `fetch`, the `EventSource` internals (including the browser's own retry) and `setTimeout` timing. Network results and decode results are inputs, and the reconnect timer is a pending flag.
- The asynchrony of the Cache Storage API. `cache.put` is taken to complete within the event that starts it.
- `caches.match` searches every cache in creation order. It is modelled as a lookup in the current cache only, which is the only cache left after activation.
- `EventStream.LiveOrderClient.OnDataEvent`: the `catch` in web/lib/sse.ts also catches an exception thrown by the handler itself and logs it as a parse failure. Handlers are modelled as calls that return.
- `EventStream`: the handlers are captured once, when the effect runs. Handler objects from later renders are not modelled.
- React rendering and hook scheduling, and the internals of the react-query cache. Toasts and navigations are trace entries.
- The messages the JavaScript engine gives to thrown non-`Error` values. The verify page's toast for those failures is `ToastErrorOf(failure)`.
- Utils.TimeAgo: date parsing is not modelled; the argument is the elapsed milliseconds. An unparseable `dateString` makes `new Date` invalid, every comparison fails, and `formatDate` then throws a `RangeError` from `Intl.DateTimeFormat` (web/lib/utils.ts:35-51). The model has no such path.
- `formatCurrency`, `formatDate` and `cn`. They wrap `Intl` and the class-name libraries. `timeAgo`'s last bucket is the `FormattedDate` label.
- Floating point: `parseFloat`, `isNaN` and `price.toString()` are parameters. Prices are `real`.
- `toLowerCase` is modelled for ASCII letters only. Non-ASCII case mappings are not modelled.
- JavaScript strings are sequences of UTF-16 code units, and `length`, `slice` and `includes` count those. The model's strings are sequences of code points. `Utils.FormatPhoneNumber`, `LegacyUtils.FormatPhoneNumber`, `VerifyPage.SanitizeCode`'s six-character gate and `Js.Includes` therefore differ from the source on text with characters outside the Basic Multilingual Plane.
- JSON numbers: `Js.Json.JNumber` holds an integer, not a double. Fractional values and double-precision rounding are not modelled.
- Missing product fields: `matchesSearch` reads `name`, `description` and `category` through `?? ''` (web/app/dashboard/stock/page.tsx:15-17). `Types.Product` makes every field a required string, so the fallback for an absent field is not modelled.
- `Api.ApiClient.BuildRequest`: caller headers are modelled as a plain object. A `Headers` instance, which the object spread would drop, is not modelled.
- The other endpoint wrappers in both request layers (products, analytics, request-OTP). They add nothing beyond `fetchAPI`.
- The `maxLength={6}` attribute of the code field. It is enforced by the browser, not by the page's logic.
- Category names that are keys inherited from JavaScript's `Object.prototype` (such as `toString`), and the display order of the groups. `StockPage.GroupByCategory` models the buckets' contents.
- The service worker's `sync` handler (web/public/service-worker.js:104-114). It only logs.
- The rest of the service-worker lifecycle: waiting behind an older worker, client control and `clients.claim`. `skipWaiting` is taken to let an installed worker activate at once.
- Presentation-only files: the dashboards, reports, charts, order cards, layouts, navigation, error pages, login page, PWA registration and build scripts.

## Findings

| source | as written | input that shows it | evidently intended | confidence | as-written member | corrected member |
|---|---|---|---|---|---|---|
| web/app/dashboard/stock/page.tsx:88-95 | the icon literals are the emoji's UTF-8 bytes read back as Windows-1252 (with the undefined byte 0x8D lost), so the page shows text such as "ðŸº" | category "Craft Beer" shows "ðŸº" instead of 🍺 | the same icons as web/components/dashboard/product-card.tsx:26-33 | high; not executed | StockPage.CategoryEmojiAsWritten, with StockPage.AsWrittenIsMisreadIcon | StockPage.CategoryEmoji |
