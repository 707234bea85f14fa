/**
 * The data the monitor works on: the monitoring configuration (`appleTaskConfig`), the typed form of
 * the fulfillment-messages JSON response, the scripted outcome of each HTTP
 * attempt, and the observable events (log lines, requests, sleeps, pushes)
 * one monitoring pass produces.
 */
module Domain {
  import opened Wrappers

  // ---------------------------------------------------------------- configuration

  /** One push target of a device; any field may be null in the configuration. */
  datatype PushConfig = PushConfig(
    barkPushUrl: Option<string>,
    barkPushToken: Option<string>,
    barkPushSound: Option<string>,
    feishuBotSecret: Option<string>,
    feishuBotWebhooks: Option<string>)

  /** A product to watch, the stores to watch it in, and where to send alerts. */
  datatype DeviceItem = DeviceItem(
    deviceCode: string,
    storeWhiteList: seq<string>,
    pushConfigs: seq<PushConfig>)

  /**
   * The monitoring configuration (`appleTaskConfig`). `baseCountryUrl` is the retailer URL the
   * country lookup yields for the configured country.
   */
  datatype TaskConfig = TaskConfig(
    baseCountryUrl: string,
    location: string,
    cookie: Option<string>,
    deviceCodeList: seq<DeviceItem>)

  // ---------------------------------------------------------------- parsed response

  /** `retailStore.address`. */
  datatype Address = Address(twoLineAddress: Option<string>, daytimePhone: Option<string>)

  /** `retailStore`. */
  datatype RetailStore = RetailStore(distanceWithUnit: Option<string>, address: Option<Address>)

  /** `messageTypes.regular` of one part. */
  datatype Regular = Regular(storePickupProductTitle: Option<string>)

  /**
   * `partsAvailability[deviceCode]`. `regular` is None when either
   * `messageTypes` or `messageTypes.regular` is missing.
   */
  datatype PartAvailability = PartAvailability(
    pickupDisplay: Option<string>,
    pickupSearchQuote: Option<string>,
    regular: Option<Regular>)

  /** One element of `pickupMessage.stores`. */
  datatype Store = Store(
    storeName: Option<string>,
    partsAvailability: Option<map<string, PartAvailability>>,
    retailStore: Option<RetailStore>)

  /** `body.content.pickupMessage`. */
  datatype PickupMessage = PickupMessage(stores: Option<seq<Store>>)

  /**
   * The parsed response. `pickupMessage` is None when `body`, `body.content`
   * or `body.content.pickupMessage` is missing.
   */
  datatype Body = Body(pickupMessage: Option<PickupMessage>)

  // ---------------------------------------------------------------- HTTP attempts

  /**
   * What one HTTP attempt yields: a transport exception, or a status code
   * with the body parsed as JSON (None when the body does not parse).
   */
  datatype Attempt = Transport | Response(status: int, payload: Option<Body>)

  /** `HttpResponse.isOk`: a 2xx status. */
  predicate IsOk(status: int) {
    200 <= status < 300
  }

  /** The statuses the retailer uses for throttling. */
  predicate IsRateLimited(status: int) {
    status == 403 || status == 429 || status == 541
  }

  // ---------------------------------------------------------------- observable events

  /** The log lines of AppleMonitor.java, by kind; store lines carry their exact text. */
  datatype LogLine =
    | RateLimitedWarning(status: int, attemptNumber: nat)   // warn: throttled, will retry
    | AttemptErrorWarning(attemptNumber: nat)               // warn: exception, will retry
    | RequestFailed(status: int)                            // info: hard failure
    | RetriesExhausted                                      // info: retry budget used up
    | WrongProductCode                                      // info: `stores` missing
    | NoNearbyStore(location: string)                       // info: `stores` empty
    | StoreStatus(content: string)                          // info: one store's line
    | MonitorError                                          // error: exception in one pass

  /** Bark's sound: the library's "glass" default, or the configured one. */
  datatype Sound = GlassSound | NamedSound(name: string)

  /** The fields of a Bark push. */
  datatype PushDetails = PushDetails(
    title: string, body: string, category: string, group: string, sound: Sound)

  /**
   * A request URL: `prefix` is everything before the `?`, `query` the
   * parameters whose encoded form follows it.
   */
  datatype Url = Url(prefix: string, query: map<string, string>)

  datatype Event =
    | Log(line: LogLine)
    | Request(url: Url, headers: map<string, string>)
    | Backoff                                               // sleep before a retry
    | Jitter                                                // sleep after a device
    | BarkPush(barkUrl: string, token: string, details: PushDetails)
    | FeiShuPush(secret: string, webhooks: string, text: string)
}
