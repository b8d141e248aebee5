/**
 * The values the price view works on: the indicator payload returned by the
 * remote API (and kept in the browser's storage), its hourly price points,
 * the zones derived from them and the summary tiers shown in the cards.
 */
module Types {

  datatype Option<+T> = None | Some(value: T)

  /** One entry of `indicator.values`: an hourly price of one zone. */
  datatype PricePoint = PricePoint(geoId: int, geoName: string, value: real, datetime: string)

  /** A geographic zone (`LocationType`): an id and its display name. */
  datatype Location = Location(geoId: int, geoName: string)

  /** The zone a price point belongs to. */
  function LocationOf(p: PricePoint): (l: Location)
  {
    Location(p.geoId, p.geoName)
  }

  /** `ClassType`: which of the three summary cards a tier is. */
  datatype TierClass = Maximum | Mean | Minimum

  /**
   * `TierType`. The price is kept at full precision (the two-decimal
   * `toFixed` rendering is presentation); the hour is the ISO datetime of
   * the point the extreme was taken from, and absent for the mean.
   */
  datatype Tier = Tier(name: string, price: real, kind: TierClass, hour: Option<string>)

  /** `data.indicator`: the raw values and, once derived, the zone list. */
  datatype Indicator = Indicator(values: seq<PricePoint>, geos: Option<seq<Location>>)

  /** The JSON body of the API response, also the value kept in the cache. */
  datatype Payload = Payload(indicator: Indicator)
}
