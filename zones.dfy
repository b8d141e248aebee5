/**
 * Zone derivation (the loop of `saveDataToState`): the distinct zones of a
 * payload, each listed once, in the order its id first appears.
 */
module ZoneList {
  import opened Types

  /** The ids of a zone list, in order. */
  function Ids(geos: seq<Location>): (r: seq<int>)
    ensures |r| == |geos|
    ensures forall i :: 0 <= i < |geos| ==> r[i] == geos[i].geoId
  {
    seq(|geos|, i requires 0 <= i < |geos| => geos[i].geoId)
  }

  /**
   * The zone list of `values`, read left to right: a point whose id is not
   * listed yet adds its zone at the end.
   */
  function Zones(values: seq<PricePoint>): (geos: seq<Location>)
  {
    if values == [] then []
    else
      var geos := Zones(values[..|values| - 1]);
      var item := values[|values| - 1];
      if item.geoId in Ids(geos) then geos else geos + [LocationOf(item)]
  }

  /**
   * The loop over `data.indicator.values` that pushes each new `geo_id`
   * into `geo_ids` and its zone into `geos`.
   */
  method DeriveGeos(values: seq<PricePoint>) returns (geos: seq<Location>)
    ensures geos == Zones(values)
  {
    geos := [];
    var geoIds: seq<int> := [];
    for i := 0 to |values|
      invariant geos == Zones(values[..i])
      invariant geoIds == Ids(geos)
    {
      var item := values[i];
      assert values[..i + 1][..i] == values[..i];
      if item.geoId !in geoIds {
        geoIds := geoIds + [item.geoId];
        geos := geos + [LocationOf(item)];
      }
    }
    assert values[..|values|] == values;
  }

  /** No id is listed twice. */
  ghost predicate DistinctIds(geos: seq<Location>)
  {
    forall i, j :: 0 <= i < j < |geos| ==> geos[i].geoId != geos[j].geoId
  }

  /** The id of every value is listed. */
  ghost predicate CoversIds(geos: seq<Location>, values: seq<PricePoint>)
  {
    forall p :: p in values ==> p.geoId in Ids(geos)
  }

  /** `values[k]` is the first value carrying the id of `geo`, and `geo` is its zone. */
  ghost predicate FirstOccurrenceAt(values: seq<PricePoint>, k: int, geo: Location)
  {
    && 0 <= k < |values|
    && LocationOf(values[k]) == geo
    && forall j :: 0 <= j < k ==> values[j].geoId != geo.geoId
  }

  /** Every listed zone is the zone (id and name) of the first value carrying its id. */
  ghost predicate FromFirstOccurrences(geos: seq<Location>, values: seq<PricePoint>)
  {
    forall g :: g in geos ==> exists k :: FirstOccurrenceAt(values, k, g)
  }

  /** An earlier zone's id first occurs before a later zone's id does. */
  ghost predicate InFirstOccurrenceOrder(geos: seq<Location>, values: seq<PricePoint>)
  {
    forall i, j, ki, kj ::
      0 <= i < j < |geos| && FirstOccurrenceAt(values, ki, geos[i]) && FirstOccurrenceAt(values, kj, geos[j]) ==>
        ki < kj
  }

  /** `geos` is `before` after the loop has looked at `last`. */
  ghost predicate Extends(geos: seq<Location>, before: seq<Location>, last: PricePoint)
  {
    geos == if last.geoId in Ids(before) then before else before + [LocationOf(last)]
  }

  /** One step of the derivation: the zone list of a prefix, extended by one value. */
  lemma ZonesStep(values: seq<PricePoint>)
    requires values != []
    ensures Extends(Zones(values), Zones(values[..|values| - 1]), values[|values| - 1])
  {
  }

  /** An id is listed exactly when some zone of the list carries it. */
  lemma IdListed(geos: seq<Location>, id: int)
    ensures id in Ids(geos) <==> exists g :: g in geos && g.geoId == id
  {
    if id in Ids(geos) {
      var i :| 0 <= i < |geos| && Ids(geos)[i] == id;
      assert geos[i] in geos;
    }
    if exists g :: g in geos && g.geoId == id {
      var g :| g in geos && g.geoId == id;
      var i :| 0 <= i < |geos| && geos[i] == g;
      assert Ids(geos)[i] == id;
    }
  }

  /** An id has at most one first occurrence. */
  lemma FirstOccurrenceUnique(values: seq<PricePoint>, k1: int, k2: int, geo: Location)
    requires FirstOccurrenceAt(values, k1, geo) && FirstOccurrenceAt(values, k2, geo)
    ensures k1 == k2
  {
  }

  /** A first occurrence in a prefix stays the first occurrence in the whole. */
  lemma FirstOccurrenceExtends(values: seq<PricePoint>, m: nat, k: int, geo: Location)
    requires m <= |values| && FirstOccurrenceAt(values[..m], k, geo)
    ensures FirstOccurrenceAt(values, k, geo)
  {
    assert forall j :: 0 <= j <= k ==> values[..m][j] == values[j];
  }

  lemma UniqueStep(geos: seq<Location>, before: seq<Location>, last: PricePoint)
    requires DistinctIds(before) && Extends(geos, before, last)
    ensures DistinctIds(geos)
  {
    if last.geoId !in Ids(before) {
      forall i | 0 <= i < |before| ensures before[i].geoId != last.geoId {
        assert Ids(before)[i] == before[i].geoId;
      }
    }
  }

  lemma CompleteStep(values: seq<PricePoint>, geos: seq<Location>, before: seq<Location>)
    requires values != []
    requires CoversIds(before, values[..|values| - 1]) && Extends(geos, before, values[|values| - 1])
    ensures CoversIds(geos, values)
  {
    var n := |values|;
    var prefix, last := values[..n - 1], values[n - 1];
    forall p | p in values ensures p.geoId in Ids(geos) {
      var k :| 0 <= k < n && values[k] == p;
      if k < n - 1 {
        assert prefix[k] == p;
        IdListed(before, p.geoId);
        var g :| g in before && g.geoId == p.geoId;
        assert g in geos;
        IdListed(geos, p.geoId);
      } else {
        assert p == last;
        if last.geoId !in Ids(before) {
          assert geos[|before|] == LocationOf(last);
          IdListed(geos, p.geoId);
        }
      }
    }
  }

  /** A value whose id the zones of the values before it lack is that id's first occurrence. */
  lemma NewIdFirstOccurs(values: seq<PricePoint>, before: seq<Location>)
    requires values != []
    requires CoversIds(before, values[..|values| - 1])
    requires values[|values| - 1].geoId !in Ids(before)
    ensures FirstOccurrenceAt(values, |values| - 1, LocationOf(values[|values| - 1]))
  {
    var n := |values|;
    var prefix, last := values[..n - 1], values[n - 1];
    forall j | 0 <= j < n - 1 ensures values[j].geoId != last.geoId {
      assert values[j] == prefix[j];
      assert prefix[j] in prefix;
    }
  }

  lemma SoundStep(values: seq<PricePoint>, geos: seq<Location>, before: seq<Location>)
    requires values != []
    requires FromFirstOccurrences(before, values[..|values| - 1])
    requires CoversIds(before, values[..|values| - 1])
    requires Extends(geos, before, values[|values| - 1])
    ensures FromFirstOccurrences(geos, values)
  {
    var n := |values|;
    var prefix, last := values[..n - 1], values[n - 1];
    forall g | g in geos ensures exists k :: FirstOccurrenceAt(values, k, g) {
      if g in before {
        var k :| FirstOccurrenceAt(prefix, k, g);
        FirstOccurrenceExtends(values, n - 1, k, g);
      } else {
        assert last.geoId !in Ids(before) && g == LocationOf(last);
        NewIdFirstOccurs(values, before);
      }
    }
  }

  /** The first occurrence of a zone listed for a prefix lies inside that prefix. */
  lemma OldZoneFirstOccurs(values: seq<PricePoint>, before: seq<Location>, g: Location, k: int)
    requires values != [] && g in before
    requires FromFirstOccurrences(before, values[..|values| - 1])
    requires FirstOccurrenceAt(values, k, g)
    ensures k < |values| - 1 && FirstOccurrenceAt(values[..|values| - 1], k, g)
  {
    var kp :| FirstOccurrenceAt(values[..|values| - 1], kp, g);
    FirstOccurrenceExtends(values, |values| - 1, kp, g);
    FirstOccurrenceUnique(values, k, kp, g);
  }

  lemma OrderStep(values: seq<PricePoint>, geos: seq<Location>, before: seq<Location>)
    requires values != []
    requires InFirstOccurrenceOrder(before, values[..|values| - 1])
    requires FromFirstOccurrences(before, values[..|values| - 1])
    requires CoversIds(before, values[..|values| - 1])
    requires Extends(geos, before, values[|values| - 1])
    ensures InFirstOccurrenceOrder(geos, values)
  {
    var n := |values|;
    var prefix, last := values[..n - 1], values[n - 1];
    forall i, j, ki, kj | 0 <= i < j < |geos| && FirstOccurrenceAt(values, ki, geos[i]) && FirstOccurrenceAt(values, kj, geos[j])
      ensures ki < kj
    {
      assert geos[i] == before[i] && before[i] in before;
      OldZoneFirstOccurs(values, before, geos[i], ki);
      if j < |before| {
        assert geos[j] == before[j] && before[j] in before;
        OldZoneFirstOccurs(values, before, geos[j], kj);
      } else {
        // geos[j] is the zone the last value added: its id first occurs at the end
        assert last.geoId !in Ids(before) && geos[j] == LocationOf(last);
        NewIdFirstOccurs(values, before);
        FirstOccurrenceUnique(values, kj, n - 1, geos[j]);
      }
    }
  }

  /** Each id is listed at most once. */
  lemma {:induction false} ZonesUnique(values: seq<PricePoint>)
    ensures DistinctIds(Zones(values))
  {
    if values != [] {
      var prefix := values[..|values| - 1];
      ZonesUnique(prefix);
      ZonesStep(values);
      UniqueStep(Zones(values), Zones(prefix), values[|values| - 1]);
    }
  }

  /** Every id of the values is listed. */
  lemma {:induction false} ZonesComplete(values: seq<PricePoint>)
    ensures CoversIds(Zones(values), values)
  {
    if values != [] {
      var prefix := values[..|values| - 1];
      ZonesComplete(prefix);
      ZonesStep(values);
      CompleteStep(values, Zones(values), Zones(prefix));
    }
  }

  /** Every listed zone is the zone of the first value that carries its id. */
  lemma {:induction false} ZonesSound(values: seq<PricePoint>)
    ensures FromFirstOccurrences(Zones(values), values)
  {
    if values != [] {
      var prefix := values[..|values| - 1];
      ZonesSound(prefix);
      ZonesComplete(prefix);
      ZonesStep(values);
      SoundStep(values, Zones(values), Zones(prefix));
    }
  }

  /** The zones are listed in the order their ids first occur. */
  lemma {:induction false} ZonesOrdered(values: seq<PricePoint>)
    ensures InFirstOccurrenceOrder(Zones(values), values)
  {
    if values != [] {
      var prefix := values[..|values| - 1];
      ZonesOrdered(prefix);
      ZonesSound(prefix);
      ZonesComplete(prefix);
      ZonesStep(values);
      OrderStep(values, Zones(values), Zones(prefix));
    }
  }

  /** The default zone: the list is empty exactly when the values are, and
      otherwise starts with the zone of the first value. */
  lemma {:induction false} ZonesHead(values: seq<PricePoint>)
    ensures var geos := Zones(values);
            && (geos == [] <==> values == [])
            && (values != [] ==> geos[0] == LocationOf(values[0]))
  {
    if |values| > 1 {
      var prefix := values[..|values| - 1];
      ZonesHead(prefix);
      assert prefix[0] == values[0];
    }
  }
}
