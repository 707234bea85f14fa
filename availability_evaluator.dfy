/**
 * Decides, store by store, whether a store is watched (the whitelist
 * filter), whether the watched product can be picked up there, and what
 * line describes it.
 */
module AvailabilityEvaluator {
  import opened Wrappers
  import opened Text
  import opened Domain

  /** The only `pickupDisplay` value that means "can be picked up". */
  const AvailableStatus := "available"
  const NoAddress := "暂无取货地址"
  const NoPhone := "暂无联系电话"
  const PickupLabel := "\n取货地址:"

  /** `filterStore`: whether any whitelist entry matches the name, in either direction. */
  predicate FilterStore(storeName: string, whiteList: seq<string>)
    decreases |whiteList|
  {
    && whiteList != []
    && (|| Contains(storeName, whiteList[0])
        || Contains(whiteList[0], storeName)
        || FilterStore(storeName, whiteList[1..]))
  }

  /**
   * A store name passes `filterStore` exactly when some entry is a
   * substring of the name or the name is a substring of the entry.
   */
  lemma {:induction false} FilterStoreIff(storeName: string, whiteList: seq<string>)
    ensures FilterStore(storeName, whiteList)
            <==> exists k :: k in whiteList && (Contains(storeName, k) || Contains(k, storeName))
    decreases |whiteList|
  {
    if whiteList != [] {
      var head, tail := whiteList[0], whiteList[1..];
      FilterStoreIff(storeName, tail);
      if exists k :: k in whiteList && (Contains(storeName, k) || Contains(k, storeName)) {
        var k :| k in whiteList && (Contains(storeName, k) || Contains(k, storeName));
        if k != head {
          assert k in tail;
        }
      }
      if FilterStore(storeName, tail) {
        var k :| k in tail && (Contains(storeName, k) || Contains(k, storeName));
        assert k in whiteList;
      }
    }
  }

  /**
   * The stream filter of one pass: an empty whitelist keeps every store,
   * otherwise `filterStore` decides. None stands for the exception a store
   * without a name raises there.
   */
  function PassesFilter(store: Store, whiteList: seq<string>): (r: Option<bool>)
    ensures r.None? <==> whiteList != [] && store.storeName.None?
    ensures r == Some(true)
            <==> || whiteList == []
                 || (&& store.storeName.Some?
                     && exists k :: k in whiteList
                                    && (Contains(store.storeName.value, k) || Contains(k, store.storeName.value)))
  {
    if whiteList == [] then Some(true)
    else if store.storeName.None? then None
    else
      FilterStoreIff(store.storeName.value, whiteList);
      Some(FilterStore(store.storeName.value, whiteList))
  }

  /** A string does not contain a non-empty string whose first character it lacks. */
  lemma {:induction false} NotContainsMissingFirst(s: string, t: string)
    requires t != [] && t[0] !in s
    ensures !Contains(s, t)
    decreases |s|
  {
    if s != [] {
      assert s[0] in s;
      assert forall c :: c in s[1..] ==> c in s;
      NotContainsMissingFirst(s[1..], t);
    }
  }

  /** With the whitelist ["Oxford St"], "Apple Oxford Street" passes: the entry is inside the name. */
  lemma OxfordStreetKept(entry: string, name: string)
    requires entry == "Oxford St" && name == "Apple Oxford Street"
    ensures FilterStore(name, [entry])
  {
    assert name[6..6 + |entry|] == entry;
    ContainsAt(name, entry, 6);
  }

  /** With the whitelist ["Oxford St"], "Apple Regent Street" does not pass. */
  lemma RegentStreetDropped(entry: string, name: string)
    requires entry == "Oxford St" && name == "Apple Regent Street"
    ensures !FilterStore(name, [entry])
  {
    assert entry[0] !in name;
    NotContainsMissingFirst(name, entry);
    assert name[0] !in entry;
    NotContainsMissingFirst(entry, name);
  }

  /** The `partsAvailability` entry for one product, when present. */
  function Part(store: Store, productCode: string): Option<PartAvailability> {
    if store.partsAvailability.Some? && productCode in store.partsAvailability.value
    then Some(store.partsAvailability.value[productCode])
    else None
  }

  /**
   * `judgingStoreInventory`: available exactly when `pickupDisplay` is the
   * string "available"; None stands for the exception a missing
   * `partsAvailability` or product entry raises.
   */
  function JudgingStoreInventory(store: Store, productCode: string): (r: Option<bool>)
    ensures r.None? <==> Part(store, productCode).None?
    ensures r == Some(true) <==> Part(store, productCode).Some?
                                 && Part(store, productCode).value.pickupDisplay == Some(AvailableStatus)
  {
    match Part(store, productCode)
    case None => None
    case Some(part) => Some(part.pickupDisplay.Some? && part.pickupDisplay.value == AvailableStatus)
  }

  /**
   * The address shown in a pickup block: the placeholder when the address
   * is null or empty, otherwise the address with every line break turned
   * into a space.
   */
  function AddressText(twoLineAddress: Option<string>): (a: string)
    ensures a != [] && '\n' !in a
    ensures IsEmpty(twoLineAddress) ==> a == NoAddress
    ensures !IsEmpty(twoLineAddress) ==>
              && |a| == |twoLineAddress.value|
              && forall i :: 0 <= i < |a| ==>
                   a[i] == if twoLineAddress.value[i] == '\n' then ' ' else twoLineAddress.value[i]
  {
    var chosen := if IsEmpty(twoLineAddress) then NoAddress else twoLineAddress.value;
    var a := ReplaceChar(chosen, '\n', ' ');
    assert NoAddress[0] != '\n';
    a
  }

  /**
   * The phone shown in a pickup block: the placeholder when null or empty;
   * a blank phone is kept as it is.
   */
  function PhoneText(daytimePhone: Option<string>): (p: string)
    ensures p != []
    ensures IsEmpty(daytimePhone) ==> p == NoPhone
    ensures !IsEmpty(daytimePhone) ==> p == daytimePhone.value
  {
    if IsEmpty(daytimePhone) then NoPhone else daytimePhone.value
  }

  /**
   * `buildPickupInformation`: the block appended to an available store's
   * line. None stands for the exception a missing `retailStore` or
   * `address` raises.
   */
  function BuildPickupInformation(retailStore: Option<RetailStore>, location: string): (r: Option<string>)
    ensures r.None? <==> retailStore.None? || retailStore.value.address.None?
    ensures r.Some? ==>
              var address := retailStore.value.address.value;
              && StartsWith(r.value, PickupLabel + AddressText(address.twoLineAddress) + ",电话:")
              && r.value == PickupLabel + AddressText(address.twoLineAddress)
                            + ",电话:" + PhoneText(address.daytimePhone)
                            + ",距离" + location + ":" + Show(retailStore.value.distanceWithUnit)
  {
    match retailStore
    case None => None
    case Some(rs) =>
      match rs.address
      case None => None
      case Some(address) =>
        var head := PickupLabel + AddressText(address.twoLineAddress) + ",电话:";
        var r := head + PhoneText(address.daytimePhone) + ",距离" + location + ":" + Show(rs.distanceWithUnit);
        assert r[..|head|] == head;
        Some(r)
  }

  /** A null address text and an empty phone both show their placeholders. */
  lemma PlaceholderPickup(distance: Option<string>, location: string)
    ensures BuildPickupInformation(Some(RetailStore(distance, Some(Address(None, Some(""))))), location)
            == Some(PickupLabel + NoAddress + ",电话:" + NoPhone + ",距离" + location + ":" + Show(distance))
  {
  }

  /** `门店:{},型号:{},状态:{}` filled in. */
  function StatusLine(storeName: string, deviceName: Option<string>, productStatus: Option<string>): string {
    "门店:" + storeName + ",型号:" + Show(deviceName) + ",状态:" + Show(productStatus)
  }

  /** What one watched store yields: its line, and whether it is available. */
  datatype StoreReport = StoreReport(content: string, available: bool)

  /**
   * The line of one watched store: name (trimmed), product title and pickup
   * quote; an available store's line carries the pickup block as well.
   * None stands for an exception raised on the way (no name, no entry for
   * the product, no `messageTypes.regular`, or no pickup address when one
   * is needed).
   */
  function ReportStore(store: Store, productCode: string, location: string): Option<StoreReport>
  {
    if store.storeName.None? then None
    else
      var storeName := Trim(store.storeName.value);
      match Part(store, productCode)
      case None => None
      case Some(part) =>
        match part.regular
        case None => None
        case Some(regular) =>
          var content := StatusLine(storeName, regular.storePickupProductTitle, part.pickupSearchQuote);
          if JudgingStoreInventory(store, productCode) == Some(true) then
            match BuildPickupInformation(store.retailStore, location)
            case None => None
            case Some(pickup) => Some(StoreReport(content + pickup, true))
          else
            Some(StoreReport(content, false))
  }

  /** The report of a store that is not available: its status line alone. */
  lemma UnavailableReport(store: Store, productCode: string, location: string, name: string, part: PartAvailability)
    requires store.storeName == Some(name) && Part(store, productCode) == Some(part) && part.regular.Some?
    requires part.pickupDisplay != Some(AvailableStatus)
    ensures ReportStore(store, productCode, location)
            == Some(StoreReport(StatusLine(Trim(name), part.regular.value.storePickupProductTitle, part.pickupSearchQuote),
                                false))
  {
  }

  /** The report of an available store: its status line followed by its pickup block. */
  lemma AvailableReport(store: Store, productCode: string, location: string, name: string, part: PartAvailability,
                        pickup: string)
    requires store.storeName == Some(name) && Part(store, productCode) == Some(part) && part.regular.Some?
    requires part.pickupDisplay == Some(AvailableStatus)
    requires BuildPickupInformation(store.retailStore, location) == Some(pickup)
    ensures ReportStore(store, productCode, location)
            == Some(StoreReport(StatusLine(Trim(name), part.regular.value.storePickupProductTitle, part.pickupSearchQuote)
                                + pickup, true))
  {
  }

  /**
   * A watched store's report: the line carries the trimmed name and the
   * product's title and pickup quote, and the pickup block exactly when the
   * store is available.
   */
  lemma ReportStoreContent(store: Store, productCode: string, location: string, r: StoreReport)
    requires ReportStore(store, productCode, location) == Some(r)
    ensures && store.storeName.Some?
            && Part(store, productCode).Some?
            && Part(store, productCode).value.regular.Some?
    ensures var part := Part(store, productCode).value;
            var line := StatusLine(Trim(store.storeName.value),
                                   part.regular.value.storePickupProductTitle,
                                   part.pickupSearchQuote);
            && r.available == (JudgingStoreInventory(store, productCode) == Some(true))
            && (!r.available ==> r.content == line)
            && (r.available ==>
                  && BuildPickupInformation(store.retailStore, location).Some?
                  && r.content == line + BuildPickupInformation(store.retailStore, location).value)
  {
  }

  /** The report is missing exactly when one of the lookups on the way fails. */
  lemma ReportStoreFails(store: Store, productCode: string, location: string)
    ensures ReportStore(store, productCode, location).None?
            <==> || store.storeName.None?
                 || Part(store, productCode).None?
                 || Part(store, productCode).value.regular.None?
                 || (&& JudgingStoreInventory(store, productCode) == Some(true)
                     && BuildPickupInformation(store.retailStore, location).None?)
  {
  }
}
