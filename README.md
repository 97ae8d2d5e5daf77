# Article purchase saga

This project models the `MeArticlesPurchaseCreate` handler of a paid-content
marketplace. A reader buys an article by tipping tokens to its author on a
private ledger. The handler:

- checks the price;
- refuses self-purchases;
- looks up the seller's ledger address in the user directory;
- posts the purchase tip, worth nine tenths of the price;
- records the purchase in the paid-articles table with a conditional put;
- posts the burn tip, worth one tenth of the price, to the zero address;
- stores the burn transaction id;
- polls the ledger for the purchase receipt up to three times;
- stores and returns the settlement status: `done`, `fail` or `doing`.

The model has eleven modules, one per file:

- `Wrappers`: `Option` and `Result`.
- `Json`: parsed ledger bodies and Python truthiness.
- `Errors`: the exceptions the handler raises, as one datatype.
- `Numerals`: base-10 and base-16 numerals, Python's `int(str)`, and `format(n, '064x')`.
- `Amounts`: the price gate and the 9/10 and 1/10 split.
- `Directory`: the seller-address filter.
- `Ledger`: a `Chain` class with a script of responses and a log of requests, plus the tip-response handling.
- `Poller`: the receipt classification, a specification function `Polling`, and the loop method `PollToPrivateChain`.
- `History`: the price-history search, as a function and as the `for`/`break` loop.
- `PaidArticles`: a `Table` class over a map from (article, buyer) to a record, with the conditional put and the upserting update.
- `Purchase`: the saga as a staged function (`Saga`, `AfterPurchaseTip`, `AfterBurnTip`), the lemmas about it, and the method `ExecMainProc`. The method drives a `Chain` and a `Table` in the source's order and is proved to end in exactly the state `Saga` describes.

The ledger is a scripted sequence of JSON responses. Each request consumes
the next response, and a request made after the script runs out stands for a
transport failure. So after a run the ledger's call log is the old log plus
the saga's calls, and the script has lost exactly that many responses.

## Model

| member | source | states |
|---|---|---|
| Json.FalsyValues | src/handlers/me/articles/purchase/create/me_articles_purchase_create.py:118 | The values Python treats as false are exactly `None`, `False`, `0`, the empty string, list and dict; anything equal to `0` is among them |
| Numerals.Render | src/handlers/me/articles/purchase/create/me_articles_purchase_create.py:105 | The rendering of `n` in a base is a non-empty digit string whose value is `n`, with no leading zero unless `n` is 0, and `0` is written as the single digit `0` |
| Numerals.Format064x | src/handlers/me/articles/purchase/create/me_articles_purchase_create.py:105 | `'064x'` gives at least 64 lower-case hex digits worth `n`; exactly 64 when `n < 16^64`; longer only as the plain rendering |
| Numerals.TrimStart | src/handlers/me/articles/purchase/create/me_articles_purchase_create.py:37 | The result is a suffix of the input; everything dropped is white space; it does not start with white space |
| Numerals.TrimEnd | src/handlers/me/articles/purchase/create/me_articles_purchase_create.py:37 | The mirror image of `TrimStart`, at the end of the string |
| Numerals.StripKeeps | src/handlers/me/articles/purchase/create/me_articles_purchase_create.py:37 | The white-space skip of `int()` keeps every character that is not white space |
| Numerals.ParseInt | src/handlers/me/articles/purchase/create/me_articles_purchase_create.py:37-39 | `int(text)` succeeds exactly when the stripped text is a non-empty run of decimal digits, optionally after one `+` or `-`; the value is that of the digits, negated after `-`; otherwise ValueError |
| Numerals.DecimalTextParses | src/handlers/me/articles/purchase/create/me_articles_purchase_create.py:37 | `int(str(n)) == n` for every integer `n`, negative ones included |
| Numerals.PointNeverParses | src/handlers/me/articles/purchase/create/me_articles_purchase_create.py:36-39 | A text containing a `.` is refused by `int` |
| Amounts.ValidatePrice | src/handlers/me/articles/purchase/create/me_articles_purchase_create.py:36-44 | Each result holds exactly when its cause holds: 'Price must be integer' when `int` fails; 'Decimal value is not allowed' when the float test fails; otherwise the parsed price |
| Amounts.WholeTokenPricePasses | src/handlers/me/articles/purchase/create/me_articles_purchase_create.py:41-44 | A decimal price that is a multiple of 10^18 passes the gate unchanged, given a float test that is right on such multiples |
| Amounts.PointPriceRejected | src/handlers/me/articles/purchase/create/me_articles_purchase_create.py:36-39 | A price written with a decimal point is rejected as 'Price must be integer' |
| Amounts.PurchaseAmount | src/handlers/me/articles/purchase/create/me_articles_purchase_create.py:105 | The seller's share is `9 * price / 10` rounded down, bracketed by `10a <= 9p < 10a + 10`, and never more than the price |
| Amounts.BurnAmount | src/handlers/me/articles/purchase/create/me_articles_purchase_create.py:158 | The burnt share is `price / 10` rounded down, bracketed by `10a <= p < 10a + 10` |
| Amounts.SharesAddUp | src/handlers/me/articles/purchase/create/me_articles_purchase_create.py:105 | The two shares add up to the price when it is a multiple of ten, and to one less otherwise |
| Amounts.WholeTokenPriceSplitsExactly | src/handlers/me/articles/purchase/create/me_articles_purchase_create.py:42-44 | A whole-token price loses nothing in the split |
| Amounts.BelowHexWidth | src/handlers/me/articles/purchase/create/me_articles_purchase_create.py:105 | Any amount in the exact Decimal range fits in 64 hex digits |
| Amounts.TipValuesRoundTrip | src/handlers/me/articles/purchase/create/me_articles_purchase_create.py:158 | Both tip values are exactly 64 hex digits and decode back to their amounts |
| Directory.AddressAttributes | src/handlers/me/articles/purchase/create/me_articles_purchase_create.py:207 | The filter keeps exactly the attributes named `custom:private_eth_address`: each kept one is from the list and every such attribute is kept |
| Directory.SellerAddress | src/handlers/me/articles/purchase/create/me_articles_purchase_create.py:207-212 | Succeeds if and only if exactly one attribute matches, with that attribute's value; otherwise RecordNotFoundError |
| Directory.UniqueAddressFound | src/handlers/me/articles/purchase/create/me_articles_purchase_create.py:207-212 | With one attribute of that name, the lookup returns its value |
| Directory.NoAddressAttributes | src/handlers/me/articles/purchase/create/me_articles_purchase_create.py:207 | With no attribute of that name, the filter is empty |
| Directory.MissingAddressRejected | src/handlers/me/articles/purchase/create/me_articles_purchase_create.py:209-210 | With no attribute of that name, the lookup raises RecordNotFoundError |
| Directory.AmbiguousAddressRejected | src/handlers/me/articles/purchase/create/me_articles_purchase_create.py:209-210 | With two such attributes, even ones with equal values, the lookup raises RecordNotFoundError |
| Ledger.Chain.Post | src/handlers/me/articles/purchase/create/me_articles_purchase_create.py:114-115 | A post appends the request to the log, consumes one response and returns it, or none once the script is used up |
| Ledger.Chain.SubmitTip | src/handlers/me/articles/purchase/create/me_articles_purchase_create.py:114-121 | Posting a tip logs it, consumes one response, and returns what `TipOutcome` makes of that response |
| Ledger.RemoveQuotes | src/handlers/me/articles/purchase/create/me_articles_purchase_create.py:121 | No `"` is left, and a string without quotes is unchanged |
| Ledger.RemoveQuotesKeepsOthers | src/handlers/me/articles/purchase/create/me_articles_purchase_create.py:121 | Only quotes go: the length drops by the number of quotes and every other character keeps its count |
| Ledger.RemoveQuotesConcat | src/handlers/me/articles/purchase/create/me_articles_purchase_create.py:121 | Removing quotes from a concatenation is the concatenation of the pieces' results |
| Ledger.QuotedHashUnwrapped | src/handlers/me/articles/purchase/create/me_articles_purchase_create.py:121 | A hash that comes back JSON-quoted is returned bare |
| Ledger.TipOutcome | src/handlers/me/articles/purchase/create/me_articles_purchase_create.py:117-121 | A truthy `error` raises SendTransactionError carrying it; with a falsy `error`, a string `result` gives `Ok` of that string with its quotes removed, which holds no `"`, and any other `result` raises; a missing response or a non-object body raises |
| Ledger.TipAccepted | src/handlers/me/articles/purchase/create/me_articles_purchase_create.py:117-121 | A body with a falsy `error` and a JSON-quoted hash as `result` yields the bare hash |
| Poller.Classify | src/handlers/me/articles/purchase/create/me_articles_purchase_create.py:234-243 | A truthy `error` gives 'fail' if and only if it is present, even beside a result. With a falsy `error`: 'done' if and only if the first log is an object of type `mined`; go round again if and only if the result is `null`, `logs == 0`, or the first log is an object of another type. Every other receipt raises as malformed, and only a missing response counts as unreachable |
| Poller.MinedReceiptIsDone | src/handlers/me/articles/purchase/create/me_articles_purchase_create.py:236-243 | Any first receipt with a falsy `error` whose first log is an object of type `mined` ends the polling with 'done' after one query, whatever else the receipt holds |
| Poller.EmptyLogsRaise | src/handlers/me/articles/purchase/create/me_articles_purchase_create.py:239-242 | Any receipt with a falsy `error` whose `logs` is an empty list is not a retry: `logs == 0` is false for a list and `logs[0]` raises IndexError |
| Poller.NullReceiptPending | src/handlers/me/articles/purchase/create/me_articles_purchase_create.py:239-240 | A `null` receipt means go round again |
| Poller.Polling | src/handlers/me/articles/purchase/create/me_articles_purchase_create.py:227-244 | At most `budget` queries; 'doing' only after the whole budget; any other outcome after at least one query |
| Poller.PollingTrace | src/handlers/me/articles/purchase/create/me_articles_purchase_create.py:227-244 | Every query before the last saw a pending receipt, and the last one decides the outcome; 'doing' means every query in the budget was pending |
| Poller.PollingStopsAtFirstDecisive | src/handlers/me/articles/purchase/create/me_articles_purchase_create.py:236-243 | The first non-pending response within the budget fixes the outcome and the number of queries |
| Poller.PollingExhausted | src/handlers/me/articles/purchase/create/me_articles_purchase_create.py:228-244 | Responses pending throughout the budget give 'doing' after the full budget |
| Poller.Receipts | src/handlers/me/articles/purchase/create/me_articles_purchase_create.py:215-223 | `n` receipt queries, each for the given transaction |
| Poller.PollToPrivateChain | src/handlers/me/articles/purchase/create/me_articles_purchase_create.py:225-244 | The counter loop returns the `Polling` outcome, having posted exactly that many receipt queries for the purchase transaction and consumed that many responses |
| PaidArticles.KeyOnly | src/handlers/me/articles/purchase/create/me_articles_purchase_create.py:182-189 | The item an update creates for a missing key carries that key |
| PaidArticles.Set | src/handlers/me/articles/purchase/create/me_articles_purchase_create.py:187 | `SET` gives the named attribute the new value and leaves every other attribute, the other updatable one included, as it was |
| PaidArticles.WithAttribute | src/handlers/me/articles/purchase/create/me_articles_purchase_create.py:182-200 | The update upserts: the key is present afterwards with the attribute set; no other item changes; items keep their keys |
| PaidArticles.Table.PutIfAbsent | src/handlers/me/articles/purchase/create/me_articles_purchase_create.py:149-152 | The put is written if and only if no item had the key, and otherwise the table is unchanged |
| PaidArticles.Table.Update | src/handlers/me/articles/purchase/create/me_articles_purchase_create.py:182-200 | The table becomes `WithAttribute` of the old table |
| History.HistoryCreatedAt | src/handlers/me/articles/purchase/create/me_articles_purchase_create.py:129-134 | A number result is the `created_at` of an item whose price equals the article's; otherwise the result is `''`; the only failure is a missing article price |
| History.FirstMatchRecorded | src/handlers/me/articles/purchase/create/me_articles_purchase_create.py:129-134 | The first item in newest-first order with the article's price is the one recorded |
| History.NoMatchRecordsEmpty | src/handlers/me/articles/purchase/create/me_articles_purchase_create.py:129-134 | With no item at the article's price, `''` is recorded |
| History.MissingArticlePrice | src/handlers/me/articles/purchase/create/me_articles_purchase_create.py:132 | An article without a price raises KeyError exactly when some history item has a price |
| History.SelectHistoryCreatedAt | src/handlers/me/articles/purchase/create/me_articles_purchase_create.py:129-134 | The `for`/`break` loop computes `HistoryCreatedAt` |
| Purchase.WithoutPrefix | src/handlers/me/articles/purchase/create/me_articles_purchase_create.py:109 | `address[2:]`: the address minus its first two characters, or empty if it is shorter |
| Purchase.PaidArticle | src/handlers/me/articles/purchase/create/me_articles_purchase_create.py:137-147 | The new record carries the buyer's key and the purchase transaction, with no burn transaction or status yet |
| Purchase.PurchaseTip | src/handlers/me/articles/purchase/create/me_articles_purchase_create.py:105-112 | The purchase tip goes from the buyer's address to the seller's address without its `0x`, with a 64-digit hex value that decodes to the buyer's share |
| Purchase.BurnTip | src/handlers/me/articles/purchase/create/me_articles_purchase_create.py:158-166 | The burn tip goes from the buyer's address to the zero address, with a 64-digit hex value that decodes to the burnt share |
| Purchase.Saga | src/handlers/me/articles/purchase/create/me_articles_purchase_create.py:61-101 | Only the buyer's item for this article can change; every item stays under its own key; at most two tips plus the polling budget's receipt queries reach the ledger |
| Purchase.AfterPurchaseTip | src/handlers/me/articles/purchase/create/me_articles_purchase_create.py:83-90 | After the purchase tip, only the buyer's item can change, and only once the tip succeeded on a free key; the new item holds the tip's id; the burn tip is the next call |
| Purchase.AfterBurnTip | src/handlers/me/articles/purchase/create/me_articles_purchase_create.py:88-94 | A failed burn tip changes nothing more. Otherwise the buyer's item becomes the old item with the burn id set, plus the poller's status when polling ends normally; every other attribute keeps its put value; the result is the poller's; later calls are receipt queries for the purchase; no other item changes |
| Purchase.OwnArticleRejected | src/handlers/me/articles/purchase/create/me_articles_purchase_create.py:66-67 | Buying one's own article fails with no lookup, ledger call or write |
| Purchase.MissingSellerAddressRejected | src/handlers/me/articles/purchase/create/me_articles_purchase_create.py:71 | Without exactly one seller address, nothing is posted or written |
| Purchase.CallOrder | src/handlers/me/articles/purchase/create/me_articles_purchase_create.py:83-92 | The purchase tip comes first; the burn tip comes second and only after the record was created; every later call is a receipt query for the purchase transaction |
| Purchase.FailedPurchaseTipLeavesNoRecord | src/handlers/me/articles/purchase/create/me_articles_purchase_create.py:83-86 | A failed purchase tip leaves the table unchanged and ends the saga |
| Purchase.RecordOnlyAfterPurchaseTip | src/handlers/me/articles/purchase/create/me_articles_purchase_create.py:83-86 | The table changes only after a successful purchase tip, by a new buyer item holding its id |
| Purchase.DuplicatePurchaseRejected | src/handlers/me/articles/purchase/create/me_articles_purchase_create.py:149-152 | A repeat purchase leaves the table as it was, burns nothing, and fails as a duplicate |
| Purchase.FailedBurnKeepsRecord | src/handlers/me/articles/purchase/create/me_articles_purchase_create.py:88-90 | A failed burn tip is not rolled back: the new record stays, with no burn id and no status |
| Purchase.SuccessRecordsStatus | src/handlers/me/articles/purchase/create/me_articles_purchase_create.py:90-99 | On success the returned status is the poller's verdict and equals the stored status, and the record holds both transaction ids |
| Purchase.FirstMinedReceiptIsDone | src/handlers/me/articles/purchase/create/me_articles_purchase_create.py:83-99 | Happy path: both tips succeed, the record is new, and the first receipt is mined; the result is 'done' after three ledger calls |
| Purchase.CreatePurchaseTransaction | src/handlers/me/articles/purchase/create/me_articles_purchase_create.py:104-121 | Posts the 9/10 tip to the seller's address without `0x` and returns `TipOutcome` of the response |
| Purchase.BurnTransaction | src/handlers/me/articles/purchase/create/me_articles_purchase_create.py:157-176 | Posts the 1/10 tip to the zero address and returns `TipOutcome` of the response |
| Purchase.PurchaseArticle | src/handlers/me/articles/purchase/create/me_articles_purchase_create.py:123-154 | When the history search raises KeyError (the article has no price and some history item has one), it fails and writes nothing; an existing record fails as a duplicate and writes nothing; otherwise the new record is put |
| Purchase.SettlePurchase | src/handlers/me/articles/purchase/create/me_articles_purchase_create.py:88-94 | The burn, burn update, polling and status update end in exactly the state `AfterBurnTip` describes |
| Purchase.ExecMainProc | src/handlers/me/articles/purchase/create/me_articles_purchase_create.py:61-101 | The handler's result, final table, ledger log and remaining script are exactly those of `Saga` |

## Left out

- HTTP transport: `requests.post`, request signing, headers, JSON payload encoding and `sleep(1)` are not modelled. Each request is a `Call` value, and each response the next value of a script. A request after the script runs out stands for any transport failure.
- Cognito, DynamoDB and the clock: these services are given as values. The seller's attribute list, the article item, the history items (newest first), `generate_sort_key()` and `time.time()` are inputs. The paid-articles table is a map.
- The validators that are not shown (`verified_phone_and_email`, the JSON-schema check, `validate_article_existence`, `validate_latest_price`) are not modelled. The saga takes their success as given.
- ValidatePrice: the float test `(price / 10 ** 18).is_integer()` is a parameter, not IEEE arithmetic. Only "multiples of 10^18 pass" is proved, and only for a test that is right on such multiples. The float test also accepts some non-multiples, and that is not captured.
- ValidatePrice: the price is taken as text. Underscore separators, non-ASCII digits and non-ASCII white space, which Python's `int` accepts, are not modelled, and neither is a price that arrives as a JSON number.
- ExecMainProc: the price must be non-negative and below 10^27. In that range `Decimal` arithmetic in the 28-digit default context is exact, and the model uses exact integers.
- The settings constants are fixed in the model: `POLLING_INITIAL_COUNT` is 0, `POLLING_MAX_COUNT` is 3 and `ETH_ZERO_ADDRESS` is forty `0` characters. The settings module is not part of this model. Every property except `FirstMinedReceiptIsDone` depends only on `POLLING_MAX_COUNT - POLLING_INITIAL_COUNT` being the budget.
- Python exceptions that the handler does not raise itself are grouped into four error values. `LedgerUnreachable` stands for `requests.post` raising. `ArticlePriceMissing` stands for the KeyError on `article_info['price']`. `DuplicatePurchase` stands for the `ConditionalCheckFailedException` that `put_item` raises when the key is taken. `MalformedLedgerResponse` stands for every other exception from a parsed body: a body that is not an object, a `result` of the wrong type, a missing `logs` key, or `logs[0]` failing. The exception's exact type is not kept.
- A ledger response that is not JSON at all, so that `json.loads` raises, has no value of its own. The model can only stand for it by the script running out (`LedgerUnreachable`).
- JSON floats are not distinguished from other numbers.
- The `DecimalEncoder` round trip of the history items is not modelled. Prices are integers.
- Concurrent invocations racing on the conditional put are not modelled. One invocation runs alone.
- The response body `{'statusCode': 200, 'body': ...}` is not modelled. `ExecMainProc` returns the status itself.
- `articles_price_show.py`, the read-only price lookup, is not part of this model.
- The self-purchase check sits in `exec_main_proc`, and it is modelled there. An article without a price does not fail up front as "not purchasable". It fails only if the history search reads `article_info['price']` (`ArticlePriceMissing`), and then after the purchase tip.
