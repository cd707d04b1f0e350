/** `CoordinateCacheService`: the map from resolution bucket to aggregated
    features, and its pre-fill of buckets 0 to 4. */
module CoordinateCache {
  import opened Geo

  /** Number of buckets the pre-fill writes: `for (a = 0; a < 5; a++)`. */
  const PREFILLED_BUCKETS := 5

  /** The pre-fill writes bucket `a` with features aggregated at resolution `a + 1`. */
  function PrefillResolution(bucket: int): int
  {
    bucket + 1
  }

  /** `commonZoom` after `processCache(items)` ran on `commonZoom == m`. */
  function Prefilled(m: map<int, seq<HexFeature>>, items: seq<Feature>, h3: Geojson2h3): (r: map<int, seq<HexFeature>>)
    ensures forall a :: 0 <= a < PREFILLED_BUCKETS ==> a in r && r[a] == AggregateAll(h3, items, PrefillResolution(a))
    ensures forall k :: !(0 <= k < PREFILLED_BUCKETS) ==> (k in r <==> k in m)
    ensures forall k :: !(0 <= k < PREFILLED_BUCKETS) && k in m ==> r[k] == m[k]
  {
    m + map a | 0 <= a < PREFILLED_BUCKETS :: AggregateAll(h3, items, PrefillResolution(a))
  }

  /** Each pre-filled entry lists one aggregated feature per input region, in
      input order, built at resolution bucket + 1 and carrying the region's properties. */
  lemma PrefilledEntry(m: map<int, seq<HexFeature>>, items: seq<Feature>, h3: Geojson2h3, a: int, i: int)
    requires 0 <= a < PREFILLED_BUCKETS && 0 <= i < |items|
    ensures a in Prefilled(m, items, h3) && |Prefilled(m, items, h3)[a]| == |items|
    ensures Prefilled(m, items, h3)[a][i].polygons == h3.h3SetToMultiPolygon(h3.featureToH3Set(items[i], a + 1))
    ensures Prefilled(m, items, h3)[a][i].properties == items[i].properties
  {
    AggregateAllPointwise(h3, items, a + 1);
  }

  /** Running the pre-fill twice on the same regions is running it once. */
  lemma {:induction false} PrefilledIdempotent(m: map<int, seq<HexFeature>>, items: seq<Feature>, h3: Geojson2h3)
    ensures Prefilled(Prefilled(m, items, h3), items, h3) == Prefilled(m, items, h3)
  {
    var once := Prefilled(m, items, h3);
    var twice := Prefilled(once, items, h3);
    assert twice.Keys == once.Keys;
    forall k | k in once ensures twice[k] == once[k] {
      if !(0 <= k < PREFILLED_BUCKETS) {
        assert twice[k] == once[k];
      }
    }
  }

  class CoordinateCacheService {
    var commonZoom: map<int, seq<HexFeature>>

    constructor ()
      ensures commonZoom == map[]
    {
      commonZoom := map[];
    }

    /** The inner `forEach` of `processCache`: one aggregated feature per region, in order. */
    method AggregateEntry(convertedGeoJson: seq<Feature>, h3: Geojson2h3, resolution: int) returns (entry: seq<HexFeature>)
      ensures entry == AggregateAll(h3, convertedGeoJson, resolution)
    {
      entry := [];
      for i := 0 to |convertedGeoJson|
        invariant |entry| == i
        invariant forall j :: 0 <= j < i ==>
          entry[j].polygons == Aggregate(h3, convertedGeoJson[j], resolution) &&
          entry[j].properties == convertedGeoJson[j].properties
      {
        var el := convertedGeoJson[i];
        var hexagons := h3.featureToH3Set(el, resolution);
        var feature := HexFeature(h3.h3SetToMultiPolygon(hexagons), el.properties);
        entry := entry + [feature];
      }
      AggregateAllPointwise(h3, convertedGeoJson, resolution);
    }

    /** `processCache(convertedGeoJson)`: overwrites buckets 0 to 4, leaves every other key alone. */
    method ProcessCache(convertedGeoJson: seq<Feature>, h3: Geojson2h3)
      modifies this
      ensures commonZoom == Prefilled(old(commonZoom), convertedGeoJson, h3)
    {
      for a := 0 to PREFILLED_BUCKETS
        invariant forall b :: 0 <= b < a ==> b in commonZoom && commonZoom[b] == AggregateAll(h3, convertedGeoJson, PrefillResolution(b))
        invariant forall k :: !(0 <= k < a) ==> (k in commonZoom <==> k in old(commonZoom))
        invariant forall k :: !(0 <= k < a) && k in old(commonZoom) ==> commonZoom[k] == old(commonZoom)[k]
      {
        var entry := AggregateEntry(convertedGeoJson, h3, PrefillResolution(a));
        commonZoom := commonZoom[a := entry];
      }
      assert commonZoom.Keys == Prefilled(old(commonZoom), convertedGeoJson, h3).Keys;
    }
  }
}
