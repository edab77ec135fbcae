# Steam inventory fetch: a Dafny model

This project models `InventoryAPI.get` of a Node.js Steam inventory client.
That one call fetches a user's inventory from the Steam community
inventory endpoint. It asks for the inventory page by page, builds one
item record per kept asset, and settles a promise with the items, the
currencies and the server's item count, or with an error.

The model has three parts, one module each, plus a module of shared types:

- `DescriptionLookup` models the description index (`quickDescriptionLookup`
  and `getDescription`). It is a dictionary from the key
  `classid + "_" + (instanceid || "0")` to a description. On a miss, every
  description of the current page is written into it, and a later entry
  overwrites an earlier one. The class `DescriptionCache` holds the
  dictionary as a `map` field. Its method `GetDescription` runs the merge
  loop, and is proved against the pure function `Lookup`.
- `PageProcessing` models the asset loop of one page. For each asset, in
  page order, it resolves the description and applies the tradable filter.
  It then numbers the asset from the position counter and appends it to
  `currency` when the asset has a `currencyid`, and to `inventory`
  otherwise. The fold `ProcessAssets` specifies the loop. It is proved
  equal to an independent reference definition: resolve, filter, number,
  split. It is also proved to keep an invariant on the positions and the
  filter. The method `ProcessPage` is the loop itself.
- `InventoryFetch` models the rest of `get`:
  - the SteamID precheck;
  - the request of each page: address selection, and the query merge in
    which the defaults override the caller's `qs`;
  - the request/response loop (`_get`).

  The HTTP transport is replaced by a sequence of outcomes, one per
  request, consumed in order. The pure function `Fetch` is the state
  machine. The method `Get` is the loop, and its result and requests are
  proved equal to `Fetch`.

Where the written description of the system and the code disagree, the
model follows the code:

- The description index is said never to overwrite a present key. The code
  assigns every description of the page on each miss, so a present key is
  overwritten when a later page, or a later duplicate on the same page,
  carries a different description for it. `MissOverwritesPresentKey`
  states this.
- On an empty inventory the code calls `resolve([], [], 0)`. A promise keeps
  only its first argument, so the caller gets a bare empty array, not the
  `{inventory, currency, total_inventory_count}` object. The model keeps
  this result as its own settlement, `ResolvedEmptyArray`.

A rejected fetch carries only an error (`Settlement.Rejected`). So a failed
fetch never hands back partial lists.

## Model

| member | source | states |
|---|---|---|
| DescriptionLookup.MissingInstanceIsZero | index.js:164 | a missing, empty or `"0"` instanceid gives the same key, `classid + "_0"` |
| DescriptionLookup.KeyInjective | index.js:164 | for classids without `_`, two keys are equal if and only if the classids are equal and the normalised instance parts are equal |
| DescriptionLookup.KeyCollidesWithUnderscore | index.js:164 | without that restriction, two different (classid, instanceid) pairs share a key |
| DescriptionLookup.PageValueAbsent | index.js:170-172 | the page holds no description for a key exactly when no description on it has that key |
| DescriptionLookup.PageValueLast | index.js:170-172 | the page's description for a key is the one at the last index with that key |
| DescriptionLookup.MergeGet | index.js:170-172 | after the merge, a key on the page holds that page's last description for it; every other key keeps what it had, present or absent |
| DescriptionLookup.MergeIdempotent | index.js:170-172 | merging the same page a second time changes nothing |
| DescriptionLookup.LookupHit | index.js:166-168 | a hit returns the cached description and leaves the index unchanged |
| DescriptionLookup.LookupMiss | index.js:170-174 | a miss returns the page's last description for the key, or none; every key on the page then holds its last description; keys not on the page are untouched |
| DescriptionLookup.LookupGrows | index.js:161-175 | a lookup never removes a key from the index |
| DescriptionLookup.LookupTwice | index.js:163-175 | a second lookup of the same key changes nothing and returns the same description; once found, it is a hit |
| DescriptionLookup.SameClassNoInstance | index.js:164-174 | two assets of the same class that both lack an instanceid, looked up one after the other, receive the same description |
| DescriptionLookup.MissOverwritesPresentKey | index.js:171 | a miss on one key replaces the present entry of another key when the page carries a different description for it (last writer wins) |
| DescriptionLookup.DescriptionCache.constructor | index.js:161 | the index starts empty |
| DescriptionLookup.DescriptionCache.GetDescription | index.js:163-175 | the new index and the description returned are those of `Lookup` on the old index: a hit returns early; a miss merges the page in order, then reads the key |
| PageProcessing.ProcessMatchesReference | index.js:115-122 | the asset loop appends exactly the kept non-currency assets to `inventory` and the kept currency assets to `currency`, both in page order, numbered consecutively from the counter; a dropped asset uses no position |
| PageProcessing.PageIndexStates | index.js:115-116 | during one page, the index is always either the one the page started with or that one merged with the page |
| PageProcessing.ResolvedDescription | index.js:116 | each asset receives what the starting index or the merged index holds for its key; an asset whose key the starting index lacks receives the page's last description for it, or none |
| PageProcessing.FirstPageResolution | index.js:116 | on the first page, each asset receives exactly the page's last description with its key, or none |
| PageProcessing.InitialWellFormed | index.js:68 | empty lists with the counter at 1 satisfy the accumulator invariant |
| PageProcessing.AppendWellFormed | index.js:118-120 | appending a kept item that takes the current counter value keeps the invariant: every item passed the filter and sits in the list of its kind; each list is in increasing position order; together the two lists hold positions 1 to counter-1, each once |
| PageProcessing.ProcessKeepsWellFormed | index.js:115-122 | a whole page keeps that invariant |
| PageProcessing.ProcessPage | index.js:115-122 | the loop leaves the index and the accumulators that the fold `ProcessAssets` specifies |
| InventoryFetch.SelectEndpoint | index.js:88-94 | a `uri` builder wins over a `url` builder; with only a `url` builder, the request carries that address as `url` and a null `uri`; with neither, the default inventory address is used |
| InventoryFetch.BuildQuery | index.js:78-97 | every query has `l` = language, `count` = 5000 and `start_assetid` = cursor (undefined on the first page), and nothing else when the caller gave no `qs`; with a caller `qs` it holds the caller's keys and those three, the defaults overriding the caller's values for them and every other caller entry kept |
| InventoryFetch.Classify | index.js:133-146 | "HTTP error 403" or status 403 gives the private-inventory error, and only those do; otherwise status 404 gives the not-found error, and only it does; nothing else is reclassified; a reclassified error carries the transport's status code unless it came from the "HTTP error 403" message |
| InventoryFetch.MalformedMessage | index.js:108-113 | the rejection message is a truthy `error`, else a truthy `Error`, else "Malformed response"; it is never empty |
| InventoryFetch.CheckSteamId | index.js:59-66 | the precheck passes exactly when a SteamID was given, parsed and is valid, and then yields its 64-bit id; otherwise it fails with an invalid-SteamID error |
| InventoryFetch.Get | index.js:56-158 | a failed precheck rejects with no request made; otherwise the settlement and the full list of requests sent are those of the state machine `Fetch` started with empty lists, counter 1, no cursor and the retry budget (default 1), and language default "english" |
| InventoryFetch.FetchCursors | index.js:124-125 | the first request uses the starting cursor; each later request uses the previous page's `last_assetid` after a page announcing more items, or the same cursor after a failure that is not reclassified; the run only moves past such outcomes |
| InventoryFetch.FetchStopsAtTerminal | index.js:103-113 | an empty inventory, a malformed body, a 403 or a 404 ends the fetch at the request it answers, whatever retries remain and whatever was accumulated, and settles it as that outcome dictates |
| InventoryFetch.FetchResolvedByLastPage | index.js:124-128 | a resolved fetch was settled by its last request, a well-formed page without `more_items`, and carries that page's `total_inventory_count` |
| InventoryFetch.FetchRetryBudget | index.js:150-155 | the retry budget is shared by all pages: a run meets at most max(retries, 1) failed requests, and a run rejected with the transport's own error met exactly that many |
| InventoryFetch.PageKeepsWellFormed | index.js:115-122 | processing one well-formed page keeps the accumulator invariant and only appends to both lists |
| InventoryFetch.StepKeepsWellFormed | index.js:101-157 | one request keeps the invariant and only appends: after a page with more items or a retry, the accumulators keep their earlier contents |
| InventoryFetch.FetchResolvedWellFormed | index.js:124-128 | a resolved fetch returns lists that satisfy the invariant (positions 1 to n across both lists, increasing in each list, every item filtered and of its kind) and extend what was accumulated before |
| InventoryFetch.GetResolvedWellFormed | index.js:68 | a whole `get`, started at position 1, resolves only with lists satisfying that invariant |
| InventoryFetch.RetryThenSinglePage | index.js:150-152 | with `retries = 3` and `tradableOnly`, a timeout and then one page with a tradable and a non-tradable asset resolve with exactly the tradable item at position 1 and the server's count, after two requests for the same first page |

## Left out

- The HTTP transport (`request.get`) is a network call. The model takes instead a
  sequence of outcomes, one per request: a parsed body, which may be null, or a
  transport error with an optional status code and a message. When the outcomes
  run out before the promise settles, the model reports `Pending`.
- Promise scheduling, `setTimeout` and the retry delay are left out. Only the
  order of requests is modelled: a retry reissues the same cursor.
- The `log` events of the `EventEmitter` are left out; they do not affect control flow.
- Proxy rotation (`lib/rotate.js`), the request headers and user agent, the timeout
  and the `json` flag are left out. `lib/rotate.js` is not part of this model. The
  others are constant configuration that no decision reads.
- `CEconItem` is kept opaque as the record `Item(asset, description, contextid, pos)`.
  `classes/CEconItem.js` is not part of this model.
- SteamID parsing and validation belong to the `steamid` library. The model takes
  the outcome as an input with three cases: missing, unparsable (with the parser's
  message), or parsed together with its validity verdict.
- An exception thrown inside the response handler is left out. In the code it
  would reach the same `catch` as a transport error.
- `for ... in` over `res.assets` is modelled as the array's indices in order. Other
  enumerable properties of the array are not modelled.
- Only the `uri`, `url` and `qs` fields of `requestOptions` are modelled. A `qs` is
  a string-to-string dictionary; an explicit `null` or non-object `qs`, or a
  non-function builder, is not modelled.
- SelectEndpoint: when both a `uri` and a `url` builder are given, the request's
  `url` field keeps the unevaluated builder function in the code. The model gives
  `url` as absent.
- `retries` is modelled as an integer. Non-integer and non-numeric values, which
  `retries > 1` would still compare, are not modelled.
- `total_inventory_count` is kept as an optional integer, and the strict `=== 0`
  test is modelled as `Some(0)`. `success` and `more_items` are booleans, so
  truthy non-boolean values are reduced to `true`.
- The usage demo `example.js` only prints to the console and is not part of this model.
