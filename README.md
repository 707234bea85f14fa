# Apple Monitor: the monitoring pass, in Dafny

Apple Monitor polls Apple's `fulfillment-messages` endpoint for a list of product codes. It logs a status
line for every retail store the user watches. When a store reports the product as available for pickup, it
pushes that line to the configured Bark and FeiShu channels. All of the decision logic sits in
`AppleMonitor.java`. This project models that logic and proves what it promises:

- the bounded retry loop around the HTTP GET (`executeRequestWithRetry`);
- the browser-like header set (`buildHeaders`) and the request URL;
- the store whitelist (`filterStore`) and the availability test (`judgingStoreInventory`);
- the store line and its pickup block (`buildPickupInformation`);
- the channel selection of `pushAll`;
- the store walk of `doMonitor`, and `monitor`'s pass over the devices.

Everything a pass does that can be observed is an `Event`:

- a log line, by kind (store lines carry their exact text);
- a request, with its URL and headers;
- a backoff sleep or a jitter sleep;
- a Bark push or a FeiShu message.

The network is replaced by a `Script`: what each of the three attempts would yield. An attempt is a
transport exception, or a status code with the body as parsed JSON. The parsed body is a typed record
whose fields are `Option`s, because JSON fields may be null. A `NullPointerException` on a missing field
is caught at line 147. The model shows that catch as a `None`: it logs one error and ends that device's
walk.

The imperative parts are methods with loops:

- `ExecuteRequestWithRetry`
- `BuildHeaders`
- `PushAll`
- `WalkStores`, `ProcessStore`, `HandleBody`, `DoMonitor`, `Monitor`

Each method is proved equal to a recursive specification function. The properties are lemmas about those
functions.

Modules, one file each:

| module | file | what it holds |
|---|---|---|
| `Wrappers` | `wrappers.dfy` | `Option` |
| `Text` | `text.dfy` | the Java and Hutool string calls: `isEmpty`, `isBlank`, `contains`, `trim`, `replace`, null rendering in `StrUtil.format` |
| `Domain` | `domain.dfy` | configuration, the parsed response, attempts, events |
| `RequestBuilder` | `request_builder.dfy` | URL and headers |
| `RetryingFetcher` | `retrying_fetcher.dfy` | the retry loop |
| `AvailabilityEvaluator` | `availability_evaluator.dfy` | filter, availability, store line, pickup block |
| `NotificationDispatcher` | `notification_dispatcher.dfy` | `pushAll` |
| `MonitorLoop` | `monitor_loop.dfy` | `doMonitor` and `monitor` |

Two points where the code's behaviour is easy to misread:

- **An available store's line is logged twice.** It is logged once before `pushAll` (line 139) and once
  after (line 144). Two stores, one available, therefore give three store log lines and one push. See
  `MonitorLoop.AvailableAndReadyStores`.
- **`monitor` sleeps after every device, the last one included** (line 45). See
  `MonitorLoop.MonitorJitterCount`.

## Model

| member | source | states |
|---|---|---|
| Text.ContainsIff | src/main/java/top/misec/applemonitor/job/AppleMonitor.java:193 | `Contains(s, t)`, the model of `String.contains`, holds exactly when `t` occurs in `s` at some index |
| Text.Trim | src/main/java/top/misec/applemonitor/job/AppleMonitor.java:126 | the trimmed store name is the slice of the name left after every leading and trailing character at or below U+0020 is dropped; its first and last characters are above U+0020 |
| Text.ReplaceChar | src/main/java/top/misec/applemonitor/job/AppleMonitor.java:188 | the address keeps its length; every `\n` becomes a space and every other character is kept |
| RequestBuilder.FulfillmentUrl | src/main/java/top/misec/applemonitor/job/AppleMonitor.java:81-90 | the URL is the base URL + `/shop/fulfillment-messages`, with exactly the query keys `pl`, `mts.0`, `parts.0` and `location`, holding `true`, `regular`, the device code and the configured location |
| RequestBuilder.FixedHeaderCount | src/main/java/top/misec/applemonitor/job/AppleMonitor.java:272-290 | the ten fixed header names are pairwise distinct |
| RequestBuilder.BrowserHeadersKeys | src/main/java/top/misec/applemonitor/job/AppleMonitor.java:267-299 | the header names are always the ten fixed names, plus `Cookie` exactly when the configured cookie is not blank |
| RequestBuilder.BrowserHeadersCount | src/main/java/top/misec/applemonitor/job/AppleMonitor.java:267-299 | there are ten headers without a cookie and eleven with one |
| RequestBuilder.BrowserHeadersValues | src/main/java/top/misec/applemonitor/job/AppleMonitor.java:272-296 | `Referer` is the base URL + `/shop/buy-iphone/iphone-17-pro`, `User-Agent` is the fixed Chrome 143 string, and `Cookie`, when present, is the configured cookie unchanged |
| RequestBuilder.BuildHeaders | src/main/java/top/misec/applemonitor/job/AppleMonitor.java:267-299 | the map filled one `put` at a time is the header set described by the three lemmas above |
| RetryingFetcher.Classify | src/main/java/top/misec/applemonitor/job/AppleMonitor.java:237-253 | an attempt ends the loop exactly when it is a 2xx whose body parses (giving that body) or a status that is neither 2xx nor 403/429/541 (a hard failure with that status); otherwise the loop warns, with the throttling warning for 403/429/541 and the exception warning for a transport error or an unparsable 2xx body |
| RetryingFetcher.FetchCounts | src/main/java/top/misec/applemonitor/job/AppleMonitor.java:204-214 | between 1 and 3 attempts are made; each sends exactly one request with the same URL and headers; there is exactly one backoff sleep fewer than there are attempts |
| RetryingFetcher.FetchFirstDecisive | src/main/java/top/misec/applemonitor/job/AppleMonitor.java:237-249 | if attempt `i` is the first decisive one, the loop makes exactly `i + 1` attempts and returns the body, or the hard failure, that attempt gives |
| RetryingFetcher.FetchExhaustedIff | src/main/java/top/misec/applemonitor/job/AppleMonitor.java:243-257 | the loop gives up with nothing exactly when no attempt is decisive; it then has made three attempts and ends with the retries-exhausted log line |
| RetryingFetcher.FetchFromTraceKinds | src/main/java/top/misec/applemonitor/job/AppleMonitor.java:205-253 | the loop emits only log lines, backoff sleeps and the one request, with the same URL and headers on every attempt |
| RetryingFetcher.AllThrottledExhausts | src/main/java/top/misec/applemonitor/job/AppleMonitor.java:243-257 | three HTTP 429 answers exhaust the loop after three attempts and two backoff sleeps |
| RetryingFetcher.HardFailureAtOnce | src/main/java/top/misec/applemonitor/job/AppleMonitor.java:248-249 | a first answer that is neither 2xx nor a throttling status stops the loop after one request, logging the failed status |
| RetryingFetcher.ExecuteRequestWithRetry | src/main/java/top/misec/applemonitor/job/AppleMonitor.java:204-258 | the loop's outcome, attempt count and events are those of `Fetch` with the headers `buildHeaders` gives; it makes 1 to 3 attempts and sleeps once fewer |
| AvailabilityEvaluator.FilterStoreIff | src/main/java/top/misec/applemonitor/job/AppleMonitor.java:191-194 | a name matches the whitelist exactly when some entry `k` is contained in the name or contains the name |
| AvailabilityEvaluator.PassesFilter | src/main/java/top/misec/applemonitor/job/AppleMonitor.java:114-119 | an empty whitelist keeps every store; otherwise a store is kept exactly when its name matches an entry in either direction; a store without a name under a non-empty whitelist raises |
| AvailabilityEvaluator.OxfordStreetKept | src/main/java/top/misec/applemonitor/job/AppleMonitor.java:193 | with the whitelist `["Oxford St"]`, the store "Apple Oxford Street" is kept |
| AvailabilityEvaluator.RegentStreetDropped | src/main/java/top/misec/applemonitor/job/AppleMonitor.java:193 | with the whitelist `["Oxford St"]`, the store "Apple Regent Street" is dropped |
| AvailabilityEvaluator.JudgingStoreInventory | src/main/java/top/misec/applemonitor/job/AppleMonitor.java:160-166 | a store is available exactly when its `pickupDisplay` for the product is the string "available"; a missing `partsAvailability` or product entry raises |
| AvailabilityEvaluator.AddressText | src/main/java/top/misec/applemonitor/job/AppleMonitor.java:176-188 | a null or empty address becomes "暂无取货地址"; any other address keeps its length with each `\n` turned into a space; the result is never empty and has no line break |
| AvailabilityEvaluator.PhoneText | src/main/java/top/misec/applemonitor/job/AppleMonitor.java:181-184 | a null or empty phone becomes "暂无联系电话"; any other phone, blank ones included, is kept as it is |
| AvailabilityEvaluator.BuildPickupInformation | src/main/java/top/misec/applemonitor/job/AppleMonitor.java:174-189 | the block starts with `\n取货地址:` and the address text, then gives the phone text, the location and the distance (a null distance prints as "null"); it raises exactly when `retailStore` or its `address` is missing |
| AvailabilityEvaluator.PlaceholderPickup | src/main/java/top/misec/applemonitor/job/AppleMonitor.java:176-188 | a null address and an empty phone show both placeholders in the block |
| AvailabilityEvaluator.ReportStoreContent | src/main/java/top/misec/applemonitor/job/AppleMonitor.java:124-144 | a watched store's line is `门店:{},型号:{},状态:{}` filled with the trimmed name, the product title and the pickup quote; the pickup block is appended exactly when the store is available |
| AvailabilityEvaluator.ReportStoreFails | src/main/java/top/misec/applemonitor/job/AppleMonitor.java:124-138 | a watched store raises exactly when its name, its product entry or `messageTypes.regular` is missing, or when it is available and has no pickup address |
| AvailabilityEvaluator.UnavailableReport | src/main/java/top/misec/applemonitor/job/AppleMonitor.java:132-136 | a store that is not available reports its status line alone |
| AvailabilityEvaluator.AvailableReport | src/main/java/top/misec/applemonitor/job/AppleMonitor.java:132-138 | an available store reports its status line followed by its pickup block |
| NotificationDispatcher.ConfigSendsShape | src/main/java/top/misec/applemonitor/job/AppleMonitor.java:56-74 | a configuration sends a Bark push exactly when its URL and token are non-empty and a FeiShu message exactly when its secret and webhooks are non-empty; the two tests are independent, Bark goes first, and the Bark sound defaults to "glass" |
| NotificationDispatcher.PushSendsIff | src/main/java/top/misec/applemonitor/job/AppleMonitor.java:52-77 | `pushAll` makes a send exactly when some configuration in the list triggers it |
| NotificationDispatcher.PushSendsLength | src/main/java/top/misec/applemonitor/job/AppleMonitor.java:52-77 | one send per enabled channel per configuration, duplicates included |
| NotificationDispatcher.PushSendsCarryContent | src/main/java/top/misec/applemonitor/job/AppleMonitor.java:58-73 | every send is a Bark push or a FeiShu message that carries the message unchanged |
| NotificationDispatcher.PushAll | src/main/java/top/misec/applemonitor/job/AppleMonitor.java:52-77 | the sends made configuration by configuration are exactly the sends the lemmas above describe |
| MonitorLoop.StoresEventsSplit | src/main/java/top/misec/applemonitor/job/AppleMonitor.java:114-145 | while no store raises, the walk over the stores is the walk over a prefix followed by the walk over the rest |
| MonitorLoop.ExceptionEndsWalk | src/main/java/top/misec/applemonitor/job/AppleMonitor.java:114-149 | the first store that raises ends the walk: the error is logged last, and no later store is looked at |
| MonitorLoop.WatchedStoreLogged | src/main/java/top/misec/applemonitor/job/AppleMonitor.java:120-145 | a watched store reached without an exception contributes its line in place; an available one contributes line, pushes, line |
| MonitorLoop.PushesOnlyForAvailableStores | src/main/java/top/misec/applemonitor/job/AppleMonitor.java:136-143 | every push of the walk was made for a watched, available store and carries that store's line |
| MonitorLoop.StoresEventsKinds | src/main/java/top/misec/applemonitor/job/AppleMonitor.java:114-145 | the walk emits only log lines and pushes |
| MonitorLoop.AvailableAndReadyStores | src/main/java/top/misec/applemonitor/job/AppleMonitor.java:114-145 | two stores with an empty whitelist, one "available" and one "ready-for-pickup": the available store's line carries both placeholders, and the walk is that line, one Bark push of it, that line again, then the other store's line |
| MonitorLoop.PassHasNoJitter | src/main/java/top/misec/applemonitor/job/AppleMonitor.java:79-151 | a pass never makes the jitter sleep |
| MonitorLoop.MonitorJitterCount | src/main/java/top/misec/applemonitor/job/AppleMonitor.java:42-46 | `monitor` sleeps for jitter exactly once per device, after the last device too |
| MonitorLoop.ProcessStore | src/main/java/top/misec/applemonitor/job/AppleMonitor.java:114-144 | one store's filter test, line and pushes are that store's events in the walk; it reports whether the store raised |
| MonitorLoop.WalkStores | src/main/java/top/misec/applemonitor/job/AppleMonitor.java:114-149 | the `forEach` over the stores produces the walk described by the lemmas above |
| MonitorLoop.HandleBody | src/main/java/top/misec/applemonitor/job/AppleMonitor.java:99-145 | a missing pickup message raises; missing `stores` logs the wrong-product-code line; an empty list logs the no-nearby-store line; otherwise the stores are walked |
| MonitorLoop.DoMonitor | src/main/java/top/misec/applemonitor/job/AppleMonitor.java:79-151 | a pass is the fetch's events, followed by the handling of the body when the fetch returned one |
| MonitorLoop.Monitor | src/main/java/top/misec/applemonitor/job/AppleMonitor.java:36-50 | the devices are processed in order, each pass followed by a jitter sleep |

## Left out

- HTTP execution is replaced by a `Script` of attempt results. This leaves out Hutool's `HttpRequest`, the 30-second timeout, redirects and `clearHeaders`.
- JSON parsing is replaced by the typed `Body` record. One case is not modelled: a 2xx body that fastjson parses to `null`. The source returns that `null` to `doMonitor`, which ends the pass silently.
- Sleep durations and `RandomUtil` are left out. Sleeps are only counted, as `Backoff` and `Jitter` events.
- `InterruptedException` from `Thread.sleep` is left out. So is the outer catch in `monitor` (lines 47-49), which only that exception can reach.
- `URLUtil.buildQuery`'s encoding and parameter order are left out. The query is a key-to-value map.
- The `CountryEnum` lookup is left out: the base URL is part of the monitoring configuration. The `CfgSingleton` access is replaced by explicit parameters.
- The Bark and FeiShu client calls are left out. A send is an event. Client exceptions are not modelled.
- Log text is modelled by kind only, except store lines, which are exact. Debug logs are left out.
- Text.IsBlankChar: approximates Hutool's `CharUtil.isBlankChar` (Java whitespace, Unicode space separators, U+FEFF, U+202A, U+0000). The exact set depends on the Hutool version.
- A `null` whitelist, push-config list or device list is not modelled. These lists are taken to be present, as the configuration loader produces them.
- Header values are single strings, not one-element lists. The request sends only the first element of each list anyway (lines 222-226).
