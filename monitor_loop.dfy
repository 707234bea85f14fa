/**
 * One monitoring pass: for each configured device, fetch the
 * fulfillment-messages response, walk the stores it lists, log each
 * watched store's line and push the lines of available stores; then sleep
 * before the next device.
 */
module MonitorLoop {
  import opened Wrappers
  import opened Text
  import opened Domain
  import opened RequestBuilder
  import opened RetryingFetcher
  import opened AvailabilityEvaluator
  import opened NotificationDispatcher

  /**
   * The events of one store, or None when processing it raises (which
   * ends the walk over the stores).
   */
  function StoreEvents(store: Store, device: DeviceItem, location: string): Option<seq<Event>> {
    match PassesFilter(store, device.storeWhiteList)
    case None => None
    case Some(keep) =>
      if !keep then Some([])
      else
        match ReportStore(store, device.deviceCode, location)
        case None => None
        case Some(report) =>
          var line := Log(StoreStatus(report.content));
          if report.available then Some([line] + PushSends(report.content, device.pushConfigs) + [line])
          else Some([line])
  }

  /** The walk over the stores; an exception logs an error and ends it. */
  function StoresEvents(stores: seq<Store>, device: DeviceItem, location: string): seq<Event>
    decreases |stores|
  {
    if stores == [] then []
    else
      match StoreEvents(stores[0], device, location)
      case None => [Log(MonitorError)]
      case Some(events) => events + StoresEvents(stores[1..], device, location)
  }

  /** What a pass does with a parsed response. */
  function BodyEvents(body: Body, device: DeviceItem, location: string): seq<Event> {
    match body.pickupMessage
    case None => [Log(MonitorError)]
    case Some(pickupMessage) =>
      match pickupMessage.stores
      case None => [Log(WrongProductCode)]
      case Some(stores) =>
        (if stores == [] then [Log(NoNearbyStore(location))] else []) + StoresEvents(stores, device, location)
  }

  /** The events of one pass over one device (`doMonitor`). */
  function PassEvents(task: TaskConfig, device: DeviceItem, script: Script): seq<Event>
  {
    var url := FulfillmentUrl(task.baseCountryUrl, device.deviceCode, task.location);
    var run := Fetch(script, url, BrowserHeaders(task.baseCountryUrl, task.cookie));
    run.trace + match run.outcome
                case Success(body) => BodyEvents(body, device, task.location)
                case _ => []
  }

  /** The events of `monitor`: every device in order, each followed by a jitter sleep. */
  function MonitorEvents(task: TaskConfig, devices: seq<DeviceItem>, scripts: seq<Script>): seq<Event>
    requires |scripts| == |devices|
    decreases |devices|
  {
    if devices == [] then []
    else PassEvents(task, devices[0], scripts[0]) + [Jitter] + MonitorEvents(task, devices[1..], scripts[1..])
  }

  // ---------------------------------------------------------------- properties of the walk

  /**
   * Without an exception among the first `i` stores, the walk is the walk
   * over those stores followed by the walk over the rest.
   */
  lemma {:induction false} StoresEventsSplit(stores: seq<Store>, device: DeviceItem, location: string, i: nat)
    requires i <= |stores|
    requires forall j :: 0 <= j < i ==> StoreEvents(stores[j], device, location).Some?
    ensures StoresEvents(stores, device, location)
            == StoresEvents(stores[..i], device, location) + StoresEvents(stores[i..], device, location)
    decreases i
  {
    if i > 0 {
      var first := StoreEvents(stores[0], device, location).value;
      assert stores[..i][0] == stores[0] && stores[..i][1..] == stores[1..][..i - 1];
      assert stores[1..][i - 1..] == stores[i..];
      forall j | 0 <= j < i - 1
        ensures StoreEvents(stores[1..][j], device, location).Some?
      {
        assert stores[1..][j] == stores[j + 1];
      }
      StoresEventsSplit(stores[1..], device, location, i - 1);
      ConcatAssoc(first, StoresEvents(stores[1..][..i - 1], device, location), StoresEvents(stores[i..], device, location));
    } else {
      assert stores[..0] == [] && stores[0..] == stores;
    }
  }

  /**
   * The first store whose processing raises ends the walk: its error is the
   * last event, and no later store is looked at.
   */
  lemma ExceptionEndsWalk(stores: seq<Store>, device: DeviceItem, location: string, i: nat)
    requires i < |stores| && StoreEvents(stores[i], device, location).None?
    requires forall j :: 0 <= j < i ==> StoreEvents(stores[j], device, location).Some?
    ensures StoresEvents(stores, device, location) == StoresEvents(stores[..i], device, location) + [Log(MonitorError)]
  {
    StoresEventsSplit(stores, device, location, i);
    StoresEventsAt(stores, i, device, location);
  }

  /**
   * A watched store reached without an exception contributes its line, and
   * when it is available, the pushes of that line between two loggings of
   * it, in place between the events of the stores before and after it.
   */
  lemma WatchedStoreLogged(stores: seq<Store>, device: DeviceItem, location: string, i: nat)
    requires i < |stores| && PassesFilter(stores[i], device.storeWhiteList) == Some(true)
    requires forall j :: 0 <= j <= i ==> StoreEvents(stores[j], device, location).Some?
    ensures ReportStore(stores[i], device.deviceCode, location).Some?
    ensures var report := ReportStore(stores[i], device.deviceCode, location).value;
            var line := Log(StoreStatus(report.content));
            StoresEvents(stores, device, location)
            == StoresEvents(stores[..i], device, location)
               + (if report.available then [line] + PushSends(report.content, device.pushConfigs) + [line]
                  else [line])
               + StoresEvents(stores[i + 1..], device, location)
  {
    StoresEventsSplit(stores, device, location, i);
    StoresEventsAt(stores, i, device, location);
    var report := ReportStore(stores[i], device.deviceCode, location).value;
    WatchedStoreEvents(stores[i], device, location, report);
    ConcatAssoc(StoresEvents(stores[..i], device, location),
                StoreEvents(stores[i], device, location).value,
                StoresEvents(stores[i + 1..], device, location));
  }

  /** The events of a two-store walk where neither store raises. */
  lemma TwoStoreWalk(a: Store, b: Store, device: DeviceItem, location: string, eventsA: seq<Event>, eventsB: seq<Event>)
    requires StoreEvents(a, device, location) == Some(eventsA)
    requires StoreEvents(b, device, location) == Some(eventsB)
    ensures StoresEvents([a, b], device, location) == eventsA + eventsB
  {
    assert [b][1..] == [];
    assert StoresEvents([b], device, location) == eventsB + [];
    assert eventsB + [] == eventsB;
    assert [a, b][1..] == [b];
  }

  lemma Surround(x: Event, y: Event)
    ensures [x] + [y] + [x] == [x, y, x]
  {
  }

  lemma AppendOne(x: Event, y: Event, z: Event, w: Event)
    ensures [x, y, z] + [w] == [x, y, z, w]
  {
  }

  /** One configuration with Bark alone sends exactly one Bark push. */
  lemma SingleBarkConfig(content: string, configs: seq<PushConfig>)
    requires |configs| == 1 && BarkEnabled(configs[0]) && !FeiShuEnabled(configs[0])
    ensures PushSends(content, configs) == [BarkMessage(content, configs[0])]
  {
    assert configs[1..] == [];
  }

  /** An available store pushed over Bark alone: line, push, line. */
  lemma AvailableBarkStore(store: Store, device: DeviceItem, location: string, line: string)
    requires device.storeWhiteList == [] && |device.pushConfigs| == 1
    requires BarkEnabled(device.pushConfigs[0]) && !FeiShuEnabled(device.pushConfigs[0])
    requires ReportStore(store, device.deviceCode, location) == Some(StoreReport(line, true))
    ensures StoreEvents(store, device, location)
            == Some([Log(StoreStatus(line)), BarkMessage(line, device.pushConfigs[0]), Log(StoreStatus(line))])
  {
    WatchedStoreEvents(store, device, location, StoreReport(line, true));
    SingleBarkConfig(line, device.pushConfigs);
    Surround(Log(StoreStatus(line)), BarkMessage(line, device.pushConfigs[0]));
  }

  /** A store that is not available: its line alone. */
  lemma UnavailableStore(store: Store, device: DeviceItem, location: string, line: string)
    requires device.storeWhiteList == []
    requires ReportStore(store, device.deviceCode, location) == Some(StoreReport(line, false))
    ensures StoreEvents(store, device, location) == Some([Log(StoreStatus(line))])
  {
    WatchedStoreEvents(store, device, location, StoreReport(line, false));
  }

  /**
   * Two stores and an empty whitelist: store A shows "available" and has
   * neither address text nor phone, store B shows "ready-for-pickup". A's
   * line, carrying the pickup block with both placeholders, is logged,
   * pushed once over Bark and logged again; B's line is logged once.
   */
  lemma AvailableAndReadyStores(device: DeviceItem, location: string, a: Store, b: Store,
                                nameA: string, nameB: string, partA: PartAvailability, partB: PartAvailability,
                                distance: Option<string>)
    requires device.storeWhiteList == [] && |device.pushConfigs| == 1
    requires BarkEnabled(device.pushConfigs[0]) && !FeiShuEnabled(device.pushConfigs[0])
    requires a.storeName == Some(nameA) && b.storeName == Some(nameB)
    requires Part(a, device.deviceCode) == Some(partA) && partA.regular.Some?
    requires partA.pickupDisplay == Some(AvailableStatus)
    requires a.retailStore == Some(RetailStore(distance, Some(Address(None, Some("")))))
    requires Part(b, device.deviceCode) == Some(partB) && partB.regular.Some?
    requires partB.pickupDisplay == Some("ready-for-pickup")
    ensures var lineA := StatusLine(Trim(nameA), partA.regular.value.storePickupProductTitle, partA.pickupSearchQuote)
                         + (PickupLabel + NoAddress + ",电话:" + NoPhone + ",距离" + location + ":" + Show(distance));
            var lineB := StatusLine(Trim(nameB), partB.regular.value.storePickupProductTitle, partB.pickupSearchQuote);
            StoresEvents([a, b], device, location)
            == [Log(StoreStatus(lineA)), BarkMessage(lineA, device.pushConfigs[0]), Log(StoreStatus(lineA)),
                Log(StoreStatus(lineB))]
  {
    var pickup := PickupLabel + NoAddress + ",电话:" + NoPhone + ",距离" + location + ":" + Show(distance);
    var lineA := StatusLine(Trim(nameA), partA.regular.value.storePickupProductTitle, partA.pickupSearchQuote) + pickup;
    var lineB := StatusLine(Trim(nameB), partB.regular.value.storePickupProductTitle, partB.pickupSearchQuote);
    assert ReportStore(a, device.deviceCode, location) == Some(StoreReport(lineA, true)) by {
      PlaceholderPickup(distance, location);
      AvailableReport(a, device.deviceCode, location, nameA, partA, pickup);
    }
    assert ReportStore(b, device.deviceCode, location) == Some(StoreReport(lineB, false)) by {
      assert "ready-for-pickup"[0] != AvailableStatus[0];
      UnavailableReport(b, device.deviceCode, location, nameB, partB);
    }
    var eventsA := [Log(StoreStatus(lineA)), BarkMessage(lineA, device.pushConfigs[0]), Log(StoreStatus(lineA))];
    assert StoreEvents(a, device, location) == Some(eventsA) by {
      AvailableBarkStore(a, device, location, lineA);
    }
    assert StoreEvents(b, device, location) == Some([Log(StoreStatus(lineB))]) by {
      UnavailableStore(b, device, location, lineB);
    }
    TwoStoreWalk(a, b, device, location, eventsA, [Log(StoreStatus(lineB))]);
    AppendOne(Log(StoreStatus(lineA)), BarkMessage(lineA, device.pushConfigs[0]), Log(StoreStatus(lineA)),
              Log(StoreStatus(lineB)));
  }

  /** A send made for a store: watched, reported, available, and triggered by its line. */
  predicate PushedFor(store: Store, device: DeviceItem, location: string, e: Event) {
    && PassesFilter(store, device.storeWhiteList) == Some(true)
    && ReportStore(store, device.deviceCode, location).Some?
    && ReportStore(store, device.deviceCode, location).value.available
    && e in PushSends(ReportStore(store, device.deviceCode, location).value.content, device.pushConfigs)
  }

  /** A store's own events other than its log lines are pushes made for it. */
  lemma StoreEventPushed(store: Store, device: DeviceItem, location: string, e: Event)
    requires StoreEvents(store, device, location).Some? && e in StoreEvents(store, device, location).value
    requires !e.Log?
    ensures PushedFor(store, device, location, e)
  {
    var report := ReportStore(store, device.deviceCode, location).value;
    var line := Log(StoreStatus(report.content));
    assert e in [line] + PushSends(report.content, device.pushConfigs) + [line];
  }

  /** Every push of the walk was made for a watched, available store. */
  lemma {:induction false} PushesOnlyForAvailableStores(stores: seq<Store>, device: DeviceItem, location: string, e: Event)
    requires e in StoresEvents(stores, device, location) && !e.Log?
    ensures exists i :: 0 <= i < |stores| && PushedFor(stores[i], device, location, e)
    decreases |stores|
  {
    if stores != [] {
      var head := StoreEvents(stores[0], device, location);
      if head.Some? && e in head.value {
        StoreEventPushed(stores[0], device, location, e);
      } else if head.Some? {
        PushesOnlyForAvailableStores(stores[1..], device, location, e);
        var i :| 0 <= i < |stores[1..]| && PushedFor(stores[1..][i], device, location, e);
        assert stores[1..][i] == stores[i + 1];
      }
    }
  }

  /** The walk emits only log lines and pushes. */
  lemma {:induction false} StoresEventsKinds(stores: seq<Store>, device: DeviceItem, location: string)
    ensures forall e :: e in StoresEvents(stores, device, location) ==> e.Log? || e.BarkPush? || e.FeiShuPush?
    decreases |stores|
  {
    if stores != [] {
      var head := StoreEvents(stores[0], device, location);
      if head.Some? {
        var report := ReportStore(stores[0], device.deviceCode, location);
        if report.Some? {
          PushSendsCarryContent(report.value.content, device.pushConfigs);
        }
        StoresEventsKinds(stores[1..], device, location);
      }
    }
  }

  /** A pass never sleeps for jitter: only `monitor` does, between devices. */
  lemma PassHasNoJitter(task: TaskConfig, device: DeviceItem, script: Script)
    ensures Jitter !in PassEvents(task, device, script)
  {
    var url := FulfillmentUrl(task.baseCountryUrl, device.deviceCode, task.location);
    var headers := BrowserHeaders(task.baseCountryUrl, task.cookie);
    FetchFromTraceKinds(script, 0, url, headers);
    var run := Fetch(script, url, headers);
    if run.outcome.Success? {
      var pickupMessage := run.outcome.body.pickupMessage;
      if pickupMessage.Some? && pickupMessage.value.stores.Some? {
        StoresEventsKinds(pickupMessage.value.stores.value, device, task.location);
      }
    }
  }

  /** `monitor` sleeps once per device, after the last device as well. */
  lemma {:induction false} MonitorJitterCount(task: TaskConfig, devices: seq<DeviceItem>, scripts: seq<Script>)
    requires |scripts| == |devices|
    ensures multiset(MonitorEvents(task, devices, scripts))[Jitter] == |devices|
    decreases |devices|
  {
    if devices != [] {
      PassHasNoJitter(task, devices[0], scripts[0]);
      MonitorJitterCount(task, devices[1..], scripts[1..]);
      var pass := PassEvents(task, devices[0], scripts[0]);
      var rest := MonitorEvents(task, devices[1..], scripts[1..]);
      assert multiset(pass)[Jitter] == 0;
      assert multiset(pass + [Jitter] + rest)[Jitter] == multiset(pass)[Jitter] + 1 + multiset(rest)[Jitter];
    }
  }

  // ---------------------------------------------------------------- the methods

  lemma ConcatAssoc(a: seq<Event>, b: seq<Event>, c: seq<Event>)
    ensures a + (b + c) == (a + b) + c
  {
  }

  /** The events of a watched store whose report is `report`. */
  lemma WatchedStoreEvents(store: Store, device: DeviceItem, location: string, report: StoreReport)
    requires PassesFilter(store, device.storeWhiteList) == Some(true)
    requires ReportStore(store, device.deviceCode, location) == Some(report)
    ensures StoreEvents(store, device, location)
            == Some(if report.available
                    then [Log(StoreStatus(report.content))] + PushSends(report.content, device.pushConfigs)
                         + [Log(StoreStatus(report.content))]
                    else [Log(StoreStatus(report.content))])
  {
  }

  /**
   * The body of the `forEach` for one store: the whitelist filter, the
   * status line, and for an available store the pushes between two
   * loggings of the line. `raised` reports the exception that ends the walk.
   */
  method ProcessStore(store: Store, device: DeviceItem, location: string) returns (raised: bool, batch: seq<Event>)
    ensures raised <==> StoreEvents(store, device, location).None?
    ensures !raised ==> batch == StoreEvents(store, device, location).value
  {
    var keep := PassesFilter(store, device.storeWhiteList);
    if keep.None? {
      return true, [];
    }
    if !keep.value {
      return false, [];
    }
    var report := ReportStore(store, device.deviceCode, location);
    if report.None? {
      return true, [];
    }
    var line := Log(StoreStatus(report.value.content));
    WatchedStoreEvents(store, device, location, report.value);
    if report.value.available {
      var sends := PushAll(report.value.content, device.pushConfigs);
      batch := [line] + sends + [line];
    } else {
      batch := [line];
    }
    raised := false;
  }

  /** One step of the walk, unfolded at position `i`. */
  lemma StoresEventsAt(stores: seq<Store>, i: nat, device: DeviceItem, location: string)
    requires i < |stores|
    ensures StoresEvents(stores[i..], device, location)
            == match StoreEvents(stores[i], device, location)
               case None => [Log(MonitorError)]
               case Some(events) => events + StoresEvents(stores[i + 1..], device, location)
  {
    assert stores[i..][0] == stores[i] && stores[i..][1..] == stores[i + 1..];
  }

  /**
   * The `forEach` over the stores of a response: each watched store's line
   * is logged, and an available store's line is logged again after it has
   * been pushed; the first exception logs an error and ends the walk.
   */
  method WalkStores(stores: seq<Store>, device: DeviceItem, location: string) returns (events: seq<Event>)
    ensures events == StoresEvents(stores, device, location)
  {
    ghost var goal := StoresEvents(stores, device, location);
    events := [];
    for i := 0 to |stores|
      invariant goal == events + StoresEvents(stores[i..], device, location)
    {
      var raised, batch := ProcessStore(stores[i], device, location);
      StoresEventsAt(stores, i, device, location);
      if raised {
        events := events + [Log(MonitorError)];
        return;
      }
      ConcatAssoc(events, batch, StoresEvents(stores[i + 1..], device, location));
      events := events + batch;
    }
    assert stores[|stores|..] == [];
  }

  /**
   * What `doMonitor` does with a parsed response: look up the stores of the
   * pickup message and walk them.
   */
  method HandleBody(body: Body, device: DeviceItem, location: string) returns (events: seq<Event>)
    ensures events == BodyEvents(body, device, location)
  {
    var pickupMessage := body.pickupMessage;
    if pickupMessage.None? {
      return [Log(MonitorError)];
    }
    if pickupMessage.value.stores.None? {
      return [Log(WrongProductCode)];
    }
    var stores := pickupMessage.value.stores.value;
    events := [];
    if |stores| == 0 {
      events := [Log(NoNearbyStore(location))];
    }
    var walked := WalkStores(stores, device, location);
    events := events + walked;
  }

  /** A pass, in terms of the outcome and trace of its fetch. */
  lemma PassEventsOfRun(task: TaskConfig, device: DeviceItem, script: Script,
                        outcome: FetchOutcome, attempts: nat, trace: seq<Event>)
    requires FetchRun(outcome, attempts, trace)
             == Fetch(script, FulfillmentUrl(task.baseCountryUrl, device.deviceCode, task.location),
                      BrowserHeaders(task.baseCountryUrl, task.cookie))
    ensures PassEvents(task, device, script)
            == trace + match outcome
                       case Success(body) => BodyEvents(body, device, task.location)
                       case _ => []
  {
  }

  /**
   * `doMonitor`: fetch with retries; on a response, look up the stores and
   * walk them. Every failure is caught within the pass.
   */
  method DoMonitor(task: TaskConfig, device: DeviceItem, script: Script) returns (events: seq<Event>)
    ensures events == PassEvents(task, device, script)
  {
    var url := FulfillmentUrl(task.baseCountryUrl, device.deviceCode, task.location);
    var outcome, attempts, sleeps, trace :=
      ExecuteRequestWithRetry(script, url, task.baseCountryUrl, device.deviceCode, task.cookie);
    PassEventsOfRun(task, device, script, outcome, attempts, trace);
    events := trace;
    if outcome.Success? {
      var handled := HandleBody(outcome.body, device, task.location);
      events := events + handled;
    }
  }

  /** One device of `monitor`, unfolded at position `i`. */
  lemma MonitorEventsAt(task: TaskConfig, devices: seq<DeviceItem>, scripts: seq<Script>, i: nat)
    requires |scripts| == |devices| && i < |devices|
    ensures MonitorEvents(task, devices[i..], scripts[i..])
            == PassEvents(task, devices[i], scripts[i]) + [Jitter] + MonitorEvents(task, devices[i + 1..], scripts[i + 1..])
  {
    assert devices[i..][0] == devices[i] && devices[i..][1..] == devices[i + 1..];
    assert scripts[i..][0] == scripts[i] && scripts[i..][1..] == scripts[i + 1..];
  }

  /**
   * `monitor`: one pass per configured device, in order, with a jitter
   * sleep after each, the last included.
   */
  method Monitor(task: TaskConfig, scripts: seq<Script>) returns (events: seq<Event>)
    requires |scripts| == |task.deviceCodeList|
    ensures events == MonitorEvents(task, task.deviceCodeList, scripts)
  {
    var devices := task.deviceCodeList;
    ghost var goal := MonitorEvents(task, devices, scripts);
    events := [];
    for i := 0 to |devices|
      invariant goal == events + MonitorEvents(task, devices[i..], scripts[i..])
    {
      var pass := DoMonitor(task, devices[i], scripts[i]);
      MonitorEventsAt(task, devices, scripts, i);
      ConcatAssoc(events, pass + [Jitter], MonitorEvents(task, devices[i + 1..], scripts[i + 1..]));
      events := events + (pass + [Jitter]);
    }
    assert devices[|devices|..] == [];
  }
}
