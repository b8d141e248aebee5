/**
 * The page's data flow: the daily cache protocol of `getData` and
 * `fetchDataFromApi` over the browser's key/value store, the state update of
 * `saveDataToState`, and the effect that recomputes the tiers when the
 * selected zone changes. The remote call is an outcome given as a
 * parameter; the current day is given to the constructor.
 */
module DefaultView {
  import opened Types
  import opened Tiers
  import opened ZoneList
  import opened Decimal

  /** How the `fetch` of the indicator settled. */
  datatype FetchOutcome =
    | Response(status: int, statusText: string, body: Payload)
    | NetworkError(message: string)

  /** `today-data-<day>`, the cache key of a day of the month. */
  function LocalStorageKey(day: nat): (key: string)
    ensures |key| > 11 && key[..11] == "today-data-"
  {
    "today-data-" + DecimalString(day)
  }

  /**
   * Two day-of-month numbers share a cache key exactly when they are equal.
   * The key carries no month or year, so the same date a month later does.
   */
  lemma LocalStorageKeyInjective(d1: nat, d2: nat)
    ensures LocalStorageKey(d1) == LocalStorageKey(d2) <==> d1 == d2
  {
    if LocalStorageKey(d1) == LocalStorageKey(d2) {
      assert LocalStorageKey(d1)[11..] == DecimalString(d1);
      assert LocalStorageKey(d2)[11..] == DecimalString(d2);
      DecimalStringInjective(d1, d2);
    }
  }

  /** The payload with its derived zone list attached, as `saveDataToState` leaves it. */
  function WithGeos(data: Payload): (r: Payload)
    ensures r.indicator.values == data.indicator.values
    ensures r.indicator.geos == Some(Zones(data.indicator.values))
  {
    data.(indicator := data.indicator.(geos := Some(Zones(data.indicator.values))))
  }

  /** `geos[0]`, undefined (None) for an empty list. */
  function DefaultLocation(geos: seq<Location>): (r: Option<Location>)
  {
    if geos == [] then None else Some(geos[0])
  }

  /** The zone selected by default is the zone of the first value, and there is none without values. */
  lemma DefaultLocationIsFirstValue(values: seq<PricePoint>)
    ensures DefaultLocation(Zones(values)).None? <==> values == []
    ensures values != [] ==> DefaultLocation(Zones(values)) == Some(LocationOf(values[0]))
  {
    ZonesHead(values);
  }

  /** Every zone of the list has points, so its tiers are computed without throwing. */
  lemma ListedZoneHasTiers(values: seq<PricePoint>, location: Location)
    requires location in Zones(values)
    ensures ZoneValues(values, location.geoId) != []
    ensures GetTiersByLocation(values, location).Some?
  {
    ZonesSound(values);
    var k :| FirstOccurrenceAt(values, k, location);
    assert values[k] in ZoneValues(values, location.geoId);
  }

  class HomePage {
    /** The cache key of the day the page was loaded on. */
    const localStorageKey: string
    /** The browser's `localStorage`, with entries kept already parsed. */
    var storage: map<string, Payload>
    var pvpcData: Option<Payload>
    var location: Option<Location>
    var error: Option<string>
    var tiers: seq<Tier>
    /** The number of remote requests issued. */
    var requests: nat

    /** The state the page keeps: its payload carries its own zone list, and the selected zone is one of them. */
    ghost predicate Valid()
      reads this
    {
      && (pvpcData.Some? ==> pvpcData.value.indicator.geos == Some(Zones(pvpcData.value.indicator.values)))
      && (location.Some? ==> pvpcData.Some? && location.value in Zones(pvpcData.value.indicator.values))
    }

    /** A page loaded on `today` (day of the month) over an existing store. */
    constructor (today: nat, store: map<string, Payload>)
      ensures Valid()
      ensures localStorageKey == LocalStorageKey(today) && storage == store
      ensures pvpcData == None && location == None && error == None && tiers == [] && requests == 0
    {
      localStorageKey := LocalStorageKey(today);
      storage := store;
      pvpcData, location, error, tiers, requests := None, None, None, [], 0;
    }

    /**
     * `saveDataToState`: derive the zone list, attach it to the payload,
     * keep the payload and select its first zone.
     */
    method SaveDataToState(data: Payload) returns (saved: Payload)
      modifies this`pvpcData, this`location
      ensures Valid()
      ensures saved == WithGeos(data)
      ensures pvpcData == Some(saved)
      ensures location == DefaultLocation(Zones(data.indicator.values))
    {
      var geos := DeriveGeos(data.indicator.values);
      saved := data.(indicator := data.indicator.(geos := Some(geos)));
      pvpcData := Some(saved);
      location := DefaultLocation(geos);
    }

    /**
     * `fetchDataFromApi`: one request; a 200 response is saved to the state
     * and then written under the day's key, anything else only sets the error.
     */
    method FetchDataFromApi(outcome: FetchOutcome)
      requires Valid()
      modifies this`pvpcData, this`location, this`error, this`storage, this`requests
      ensures Valid()
      ensures requests == old(requests) + 1
      ensures outcome.Response? && outcome.status == 200 ==>
                && storage == old(storage)[localStorageKey := WithGeos(outcome.body)]
                && pvpcData == Some(WithGeos(outcome.body))
                && location == DefaultLocation(Zones(outcome.body.indicator.values))
                && error == old(error)
      ensures outcome.Response? && outcome.status != 200 ==>
                && storage == old(storage) && pvpcData == old(pvpcData) && location == old(location)
                && error == Some(outcome.statusText)
      ensures outcome.NetworkError? ==>
                && storage == old(storage) && pvpcData == old(pvpcData) && location == old(location)
                && error == Some(outcome.message)
    {
      requests := requests + 1;
      match outcome
      case Response(status, statusText, body) =>
        if status != 200 {
          error := Some(statusText);
        } else {
          var saved := SaveDataToState(body);
          storage := storage[localStorageKey := saved];
        }
      case NetworkError(message) =>
        error := Some(message);
    }

    /**
     * `getData`: use today's cache entry when there is one; otherwise wipe
     * the store and fetch.
     */
    method GetData(outcome: FetchOutcome)
      requires Valid()
      modifies this`pvpcData, this`location, this`error, this`storage, this`requests
      ensures Valid()
      ensures localStorageKey in old(storage) ==>
                && storage == old(storage) && requests == old(requests) && error == old(error)
                && pvpcData == Some(WithGeos(old(storage)[localStorageKey]))
                && location == DefaultLocation(Zones(old(storage)[localStorageKey].indicator.values))
      ensures localStorageKey !in old(storage) ==>
                && requests == old(requests) + 1
                && (if outcome.Response? && outcome.status == 200
                    then && storage == map[localStorageKey := WithGeos(outcome.body)]
                         && pvpcData == Some(WithGeos(outcome.body))
                         && location == DefaultLocation(Zones(outcome.body.indicator.values))
                         && error == old(error)
                    else && storage == map[]
                         && pvpcData == old(pvpcData) && location == old(location)
                         && error == Some(if outcome.Response? then outcome.statusText else outcome.message))
    {
      if localStorageKey !in storage {
        storage := map[];
        FetchDataFromApi(outcome);
        return;
      }
      var jsonResponse := storage[localStorageKey];
      var _ := SaveDataToState(jsonResponse);
    }

    /**
     * The effect run when the selected zone changes: with a payload and a
     * zone, recompute the tiers of that zone.
     */
    method UpdateTiers()
      requires Valid()
      modifies this`tiers
      ensures Valid()
      ensures pvpcData.Some? && location.Some? ==>
                GetTiersByLocation(pvpcData.value.indicator.values, location.value) == Some(tiers)
      ensures pvpcData.None? || location.None? ==> tiers == old(tiers)
    {
      if pvpcData.Some? && location.Some? {
        var values := pvpcData.value.indicator.values;
        ListedZoneHasTiers(values, location.value);
        tiers := GetTiersByLocation(values, location.value).value;
      }
    }
  }

  /**
   * A second page load with the same day-of-month number finds the entry the
   * first one wrote, issues no request and shows the same payload. This holds
   * on the same calendar day and equally on the same date a month later.
   */
  method ReloadSameDay(today: nat, store: map<string, Payload>, first: FetchOutcome, second: FetchOutcome)
    returns (firstData: Option<Payload>, secondData: Option<Payload>, secondRequests: nat)
    requires LocalStorageKey(today) !in store
    requires first.Response? && first.status == 200
    ensures firstData == secondData == Some(WithGeos(first.body))
    ensures secondRequests == 0
  {
    var page := new HomePage(today, store);
    page.GetData(first);
    firstData := page.pvpcData;
    var reloaded := new HomePage(today, page.storage);
    reloaded.GetData(second);
    secondData, secondRequests := reloaded.pvpcData, reloaded.requests;
  }

  /**
   * A page load with another day-of-month number does not use the earlier
   * entry: one request is issued, and the store ends up holding the new
   * day's entry only.
   */
  method ReloadNextDay(today: nat, otherDay: nat, store: map<string, Payload>, first: FetchOutcome, second: FetchOutcome)
    returns (requestsOnReload: nat, storeAfter: map<string, Payload>)
    requires today != otherDay
    requires LocalStorageKey(today) !in store
    requires first.Response? && first.status == 200
    requires second.Response? && second.status == 200
    ensures requestsOnReload == 1
    ensures storeAfter == map[LocalStorageKey(otherDay) := WithGeos(second.body)]
  {
    var page := new HomePage(today, store);
    page.GetData(first);
    LocalStorageKeyInjective(today, otherDay);
    var reloaded := new HomePage(otherDay, page.storage);
    reloaded.GetData(second);
    requestsOnReload, storeAfter := reloaded.requests, reloaded.storage;
  }
}
