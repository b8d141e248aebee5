/**
 * Tier aggregation (`getTiersByLocation`): the prices of one zone reduced
 * to a maximum, a mean and a minimum, each extreme paired with the hour of
 * the first point, in input order, that carries it.
 */
module Tiers {
  import opened Types

  /** The points of one zone, `values.filter(v => v.geo_id === geoId)`. */
  function ZoneValues(values: seq<PricePoint>, geoId: int): (r: seq<PricePoint>)
    ensures |r| <= |values|
    ensures forall p :: p in r <==> p in values && p.geoId == geoId
  {
    if values == [] then []
    else (if values[0].geoId == geoId then [values[0]] else []) + ZoneValues(values[1..], geoId)
  }

  /** The points priced exactly `v`, `points.filter(p => p.value === v)`. */
  function AtValue(points: seq<PricePoint>, v: real): (r: seq<PricePoint>)
    ensures |r| <= |points|
    ensures forall p :: p in r <==> p in points && p.value == v
  {
    if points == [] then []
    else (if points[0].value == v then [points[0]] else []) + AtValue(points[1..], v)
  }

  /** The prices of the points, `points.map(p => p.value)`. */
  function Prices(points: seq<PricePoint>): (r: seq<real>)
    ensures |r| == |points|
    ensures forall i :: 0 <= i < |points| ==> r[i] == points[i].value
  {
    seq(|points|, i requires 0 <= i < |points| => points[i].value)
  }

  /** `xs.reduce((acc, x) => acc + x, 0)`: summed from the left. */
  function Sum(xs: seq<real>): (s: real)
  {
    if xs == [] then 0.0 else Sum(xs[..|xs| - 1]) + xs[|xs| - 1]
  }

  /** `Math.max(...xs)` on a non-empty list. */
  function Max(xs: seq<real>): (m: real)
    requires xs != []
    ensures m in xs
    ensures forall i :: 0 <= i < |xs| ==> xs[i] <= m
  {
    if |xs| == 1 then xs[0]
    else
      var m' := Max(xs[..|xs| - 1]);
      if m' < xs[|xs| - 1] then xs[|xs| - 1] else m'
  }

  /** `Math.min(...xs)` on a non-empty list. */
  function Min(xs: seq<real>): (m: real)
    requires xs != []
    ensures m in xs
    ensures forall i :: 0 <= i < |xs| ==> m <= xs[i]
  {
    if |xs| == 1 then xs[0]
    else
      var m' := Min(xs[..|xs| - 1]);
      if xs[|xs| - 1] < m' then xs[|xs| - 1] else m'
  }

  /** The arithmetic mean: the sum divided by the number of prices. */
  function Average(xs: seq<real>): (r: real)
    requires xs != []
    ensures r * (|xs| as real) == Sum(xs)
  {
    Sum(xs) / (|xs| as real)
  }

  /**
   * `getTiersByLocation`. None stands for the TypeError the source throws
   * when the zone has no points: `filter(...)[0]` is then undefined and its
   * `datetime` cannot be read.
   */
  function GetTiersByLocation(values: seq<PricePoint>, location: Location): (r: Option<seq<Tier>>)
    ensures r.None? <==> ZoneValues(values, location.geoId) == []
    ensures r.Some? ==> |r.value| == 3
    ensures r.Some? ==> r.value[0].kind == Maximum && r.value[1].kind == Mean && r.value[2].kind == Minimum
    ensures r.Some? ==> r.value[0].hour.Some? && r.value[1].hour.None? && r.value[2].hour.Some?
  {
    var locationValues := ZoneValues(values, location.geoId);
    if locationValues == [] then None
    else
      var prices := Prices(locationValues);
      var meanValue := Average(prices);
      var max := Max(prices);
      var min := Min(prices);
      PriceIsCarried(locationValues, max);
      PriceIsCarried(locationValues, min);
      Some([
        Tier("Valor máximo", max, Maximum, Some(AtValue(locationValues, max)[0].datetime)),
        Tier("Valor medio", meanValue, Mean, None),
        Tier("Valor mínimo", min, Minimum, Some(AtValue(locationValues, min)[0].datetime))
      ])
  }

  /** A price taken from the list is carried by some point. */
  lemma PriceIsCarried(points: seq<PricePoint>, v: real)
    requires v in Prices(points)
    ensures AtValue(points, v) != []
  {
    var i :| 0 <= i < |points| && Prices(points)[i] == v;
    assert points[i] in AtValue(points, v);
  }

  /** Filtering a zone distributes over concatenation: relative order is kept. */
  lemma {:induction false} ZoneValuesAppend(a: seq<PricePoint>, b: seq<PricePoint>, geoId: int)
    ensures ZoneValues(a + b, geoId) == ZoneValues(a, geoId) + ZoneValues(b, geoId)
  {
    if a == [] {
      assert a + b == b;
    } else {
      assert (a + b)[0] == a[0];
      assert (a + b)[1..] == a[1..] + b;
      ZoneValuesAppend(a[1..], b, geoId);
    }
  }

  /** The first point priced `v` is the earliest one in input order. */
  lemma {:induction false} AtValueFirst(points: seq<PricePoint>, v: real)
    requires AtValue(points, v) != []
    ensures exists i :: 0 <= i < |points| && points[i].value == v && AtValue(points, v)[0] == points[i]
                        && forall j :: 0 <= j < i ==> points[j].value != v
  {
    if points[0].value != v {
      AtValueFirst(points[1..], v);
      var i :| 0 <= i < |points[1..]| && points[1..][i].value == v && AtValue(points[1..], v)[0] == points[1..][i]
               && forall j :: 0 <= j < i ==> points[1..][j].value != v;
      assert points[i + 1] == points[1..][i];
      forall j | 0 <= j < i + 1 ensures points[j].value != v {
        if j > 0 { assert points[j] == points[1..][j - 1]; }
      }
    }
  }

  lemma {:induction false} SumAtMost(xs: seq<real>, b: real)
    requires forall i :: 0 <= i < |xs| ==> xs[i] <= b
    ensures Sum(xs) <= b * (|xs| as real)
  {
    if xs != [] {
      var n := |xs|;
      SumAtMost(xs[..n - 1], b);
      assert b * (n as real) == b * ((n - 1) as real) + b;
    }
  }

  lemma {:induction false} SumAtLeast(xs: seq<real>, b: real)
    requires forall i :: 0 <= i < |xs| ==> b <= xs[i]
    ensures b * (|xs| as real) <= Sum(xs)
  {
    if xs != [] {
      var n := |xs|;
      SumAtLeast(xs[..n - 1], b);
      assert b * (n as real) == b * ((n - 1) as real) + b;
    }
  }

  /** Dividing both sides of an inequality by the same positive count. */
  lemma DivideBoth(x: real, y: real, n: real)
    requires n > 0.0 && x * n <= y * n
    ensures x <= y
  {
  }

  /** A quotient by a positive count lies between the bounds its dividend has. */
  lemma QuotientBetween(total: real, mean: real, max: real, min: real, n: real)
    requires n > 0.0 && mean * n == total
    requires min * n <= total <= max * n
    ensures min <= mean <= max
  {
    DivideBoth(mean, max, n);
    DivideBoth(min, mean, n);
  }

  /** The mean of a non-empty list lies between its minimum and maximum. */
  lemma MeanBetween(xs: seq<real>)
    requires xs != []
    ensures Min(xs) <= Average(xs) <= Max(xs)
  {
    SumAtMost(xs, Max(xs));
    SumAtLeast(xs, Min(xs));
    QuotientBetween(Sum(xs), Average(xs), Max(xs), Min(xs), |xs| as real);
  }

  /** The three tiers of a zone with points, field by field. */
  lemma TiersOf(values: seq<PricePoint>, location: Location)
    requires ZoneValues(values, location.geoId) != []
    ensures var zone := ZoneValues(values, location.geoId);
            var prices := Prices(zone);
            var t := GetTiersByLocation(values, location).value;
            && t[0].price == Max(prices) && t[0].hour == Some(AtValue(zone, Max(prices))[0].datetime)
            && t[1].price == Average(prices)
            && t[2].price == Min(prices) && t[2].hour == Some(AtValue(zone, Min(prices))[0].datetime)
  {
  }

  /**
   * The extreme tiers' prices: the maximum bounds every point of the zone
   * from above and is carried by one of them, the minimum likewise from below.
   */
  lemma TierExtremes(values: seq<PricePoint>, location: Location)
    requires ZoneValues(values, location.geoId) != []
    ensures var zone := ZoneValues(values, location.geoId);
            var t := GetTiersByLocation(values, location).value;
            && (forall p :: p in zone ==> t[2].price <= p.value <= t[0].price)
            && (exists p :: p in zone && p.value == t[0].price)
            && (exists p :: p in zone && p.value == t[2].price)
  {
    var zone := ZoneValues(values, location.geoId);
    var prices := Prices(zone);
    TiersOf(values, location);
    forall p | p in zone ensures Min(prices) <= p.value <= Max(prices) {
      var i :| 0 <= i < |zone| && zone[i] == p;
      assert prices[i] == p.value;
    }
    var iMax :| 0 <= iMax < |prices| && prices[iMax] == Max(prices);
    assert zone[iMax] in zone;
    var iMin :| 0 <= iMin < |prices| && prices[iMin] == Min(prices);
    assert zone[iMin] in zone;
  }

  /**
   * The mean tier's price is the arithmetic mean of the zone's prices: their
   * sum divided by the number of points of the zone.
   */
  lemma TierMean(values: seq<PricePoint>, location: Location)
    requires ZoneValues(values, location.geoId) != []
    ensures GetTiersByLocation(values, location).value[1].price
            == Sum(Prices(ZoneValues(values, location.geoId))) / (|ZoneValues(values, location.geoId)| as real)
  {
    TiersOf(values, location);
  }

  /** The three tier prices are ordered: minimum <= mean <= maximum. */
  lemma TierOrder(values: seq<PricePoint>, location: Location)
    requires ZoneValues(values, location.geoId) != []
    ensures var t := GetTiersByLocation(values, location).value;
            t[2].price <= t[1].price <= t[0].price
  {
    TiersOf(values, location);
    MeanBetween(Prices(ZoneValues(values, location.geoId)));
  }

  /**
   * The hours of the extreme tiers: each is the datetime of the first point
   * of the zone, in input order, whose price equals that extreme, so ties
   * go to the earliest hour.
   */
  lemma TierHours(values: seq<PricePoint>, location: Location)
    requires ZoneValues(values, location.geoId) != []
    ensures var zone := ZoneValues(values, location.geoId);
            var t := GetTiersByLocation(values, location).value;
            && (exists i :: 0 <= i < |zone| && zone[i].value == t[0].price && t[0].hour == Some(zone[i].datetime)
                            && forall j :: 0 <= j < i ==> zone[j].value != t[0].price)
            && (exists i :: 0 <= i < |zone| && zone[i].value == t[2].price && t[2].hour == Some(zone[i].datetime)
                            && forall j :: 0 <= j < i ==> zone[j].value != t[2].price)
  {
    var zone := ZoneValues(values, location.geoId);
    var prices := Prices(zone);
    TiersOf(values, location);
    PriceIsCarried(zone, Max(prices));
    PriceIsCarried(zone, Min(prices));
    AtValueFirst(zone, Max(prices));
    AtValueFirst(zone, Min(prices));
  }

  /**
   * A zone with a tied maximum, mixed with another zone's point: the maximum
   * is dated by the earlier of the two tied hours, the other zone is ignored.
   */
  lemma TieBreakExample()
    ensures var values := [
              PricePoint(1, "A", 10.0, "00:00"), PricePoint(2, "B", 99.0, "06:00"),
              PricePoint(1, "A", 30.0, "12:00"), PricePoint(1, "A", 30.0, "18:00")];
            GetTiersByLocation(values, Location(1, "A")) == Some([
              Tier("Valor máximo", 30.0, Maximum, Some("12:00")),
              Tier("Valor medio", 70.0 / 3.0, Mean, None),
              Tier("Valor mínimo", 10.0, Minimum, Some("00:00"))])
  {
    var values := [
      PricePoint(1, "A", 10.0, "00:00"), PricePoint(2, "B", 99.0, "06:00"),
      PricePoint(1, "A", 30.0, "12:00"), PricePoint(1, "A", 30.0, "18:00")];
    var zone := [values[0], values[2], values[3]];
    var prices := [10.0, 30.0, 30.0];
    assert ZoneValues(values, 1) == zone;
    assert Prices(zone) == prices;
    assert Max(prices) == 30.0 by {
      assert prices[..2] == [10.0, 30.0] && prices[..2][..1] == [10.0];
    }
    assert Min(prices) == 10.0 by {
      assert prices[..2] == [10.0, 30.0] && prices[..2][..1] == [10.0];
    }
    assert Sum(prices) == 70.0 by {
      assert prices[..2] == [10.0, 30.0] && prices[..2][..1] == [10.0];
      assert Sum(prices[..1]) == 10.0;
      assert Sum(prices[..2]) == 40.0;
    }
    assert AtValue(zone, 30.0)[0] == values[2];
    assert AtValue(zone, 10.0)[0] == values[0];
    TiersOf(values, Location(1, "A"));
  }
}
