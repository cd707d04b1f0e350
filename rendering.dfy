/** Turning aggregated features into map polygons, and the get-or-populate
    sequence `renderHexagons` runs on the cache. */
module Rendering {
  import opened Geo
  import opened Maps
  import opened CoordinateCache

  /** `polygonCoords[0].map(coord => ({ lat: coord[1], lng: coord[0] }))` on an outer loop. */
  function ToPath(ring: Ring): seq<LatLng>
  {
    if ring == [] then [] else [LatLng(ring[0].y, ring[0].x)] + ToPath(ring[1..])
  }

  /** Each vertex is the ring's position with its two coordinates swapped. */
  lemma {:induction false} ToPathPointwise(ring: Ring)
    ensures |ToPath(ring)| == |ring|
    ensures forall k :: 0 <= k < |ring| ==> ToPath(ring)[k] == LatLng(ring[k].y, ring[k].x)
  {
    if ring != [] {
      ToPathPointwise(ring[1..]);
    }
  }

  /** The options both drawing paths pass to `new google.maps.Polygon`. */
  function PolygonStyle(properties: Properties, fillOpacity: nat): Style
  {
    Style(STROKE_COLOR, STROKE_OPACITY, STROKE_WEIGHT, "#" + ColorOf(properties), fillOpacity)
  }

  /** One polygon per coordinate group, all with the same options. */
  function MaterialiseGroups(groups: seq<HexPolygon>, style: Style): seq<MapPolygon>
  {
    if groups == [] then [] else [MapPolygon(ToPath(groups[0].outer), style)] + MaterialiseGroups(groups[1..], style)
  }

  lemma {:induction false} MaterialiseGroupsPointwise(groups: seq<HexPolygon>, style: Style)
    ensures |MaterialiseGroups(groups, style)| == |groups|
    ensures forall j :: 0 <= j < |groups| ==> MaterialiseGroups(groups, style)[j] == MapPolygon(ToPath(groups[j].outer), style)
  {
    if groups != [] {
      MaterialiseGroupsPointwise(groups[1..], style);
    }
  }

  /** Drawing one more coordinate group appends exactly its polygon. */
  lemma {:induction false} MaterialiseGroupsAppend(groups: seq<HexPolygon>, group: HexPolygon, style: Style)
    ensures MaterialiseGroups(groups + [group], style)
         == MaterialiseGroups(groups, style) + [MapPolygon(ToPath(group.outer), style)]
  {
    if groups == [] {
      assert [] + [group] == [group];
    } else {
      assert (groups + [group])[1..] == groups[1..] + [group];
      MaterialiseGroupsAppend(groups[1..], group, style);
    }
  }

  /** The polygons drawn for one aggregated feature. */
  function Materialise(feature: HexFeature, fillOpacity: nat): seq<MapPolygon>
  {
    MaterialiseGroups(feature.polygons, PolygonStyle(feature.properties, fillOpacity))
  }

  /** One polygon per coordinate group, its path the group's outer loop with longitude
      and latitude swapped, filled with `'#' + COLOR_HEX` at the given opacity and
      stroked in the fixed black outline. */
  lemma MaterialiseShape(feature: HexFeature, fillOpacity: nat)
    ensures |Materialise(feature, fillOpacity)| == |feature.polygons|
    ensures forall j :: 0 <= j < |feature.polygons| ==>
      Materialise(feature, fillOpacity)[j].path == ToPath(feature.polygons[j].outer)
    ensures forall j :: 0 <= j < |feature.polygons| ==>
      var style := Materialise(feature, fillOpacity)[j].style;
      style.fillColor == "#" + ColorOf(feature.properties) && style.fillOpacity == fillOpacity &&
      style.strokeColor == STROKE_COLOR && style.strokeOpacity == STROKE_OPACITY &&
      style.strokeWeight == STROKE_WEIGHT
  {
    MaterialiseGroupsPointwise(feature.polygons, PolygonStyle(feature.properties, fillOpacity));
  }

  /** The polygons drawn for a list of aggregated features, feature after feature. */
  function MaterialiseAll(features: seq<HexFeature>, fillOpacity: nat): seq<MapPolygon>
  {
    if features == [] then [] else Materialise(features[0], fillOpacity) + MaterialiseAll(features[1..], fillOpacity)
  }

  /** Number of coordinate groups over all features. */
  function GroupCount(features: seq<HexFeature>): nat
  {
    if features == [] then 0 else |features[0].polygons| + GroupCount(features[1..])
  }

  /** Drawing one more feature appends exactly that feature's polygons. */
  lemma {:induction false} MaterialiseAllAppend(features: seq<HexFeature>, feature: HexFeature, fillOpacity: nat)
    ensures MaterialiseAll(features + [feature], fillOpacity)
         == MaterialiseAll(features, fillOpacity) + Materialise(feature, fillOpacity)
  {
    if features == [] {
      assert [] + [feature] == [feature];
    } else {
      assert (features + [feature])[1..] == features[1..] + [feature];
      MaterialiseAllAppend(features[1..], feature, fillOpacity);
    }
  }

  /** Exactly one polygon per coordinate group of every feature. */
  lemma {:induction false} MaterialiseAllLength(features: seq<HexFeature>, fillOpacity: nat)
    ensures |MaterialiseAll(features, fillOpacity)| == GroupCount(features)
  {
    if features != [] {
      MaterialiseShape(features[0], fillOpacity);
      MaterialiseAllLength(features[1..], fillOpacity);
    }
  }

  /** `cachedZoomData?.length`: the bucket has an entry and it is not empty. */
  predicate IsHit(cache: map<int, seq<HexFeature>>, bucket: nat)
  {
    bucket in cache && |cache[bucket]| > 0
  }

  /** The features `renderHexagons` draws: the cached entry on a hit, otherwise the
      elements aggregated at resolution equal to the bucket. */
  function DrawnEntry(cache: map<int, seq<HexFeature>>, bucket: nat, elements: seq<Feature>, h3: Geojson2h3): seq<HexFeature>
  {
    if IsHit(cache, bucket) then cache[bucket] else AggregateAll(h3, elements, bucket)
  }

  /** The cache after `renderHexagons`: unchanged on a hit, the bucket set to the fresh aggregation on a miss. */
  function CacheAfter(cache: map<int, seq<HexFeature>>, bucket: nat, elements: seq<Feature>, h3: Geojson2h3): map<int, seq<HexFeature>>
  {
    if IsHit(cache, bucket) then cache else cache[bucket := AggregateAll(h3, elements, bucket)]
  }

  /** Fill opacity of the drawn polygons: 0.6 from the cache, 0.4 after aggregating. */
  function DrawnOpacity(cache: map<int, seq<HexFeature>>, bucket: nat): nat
  {
    if IsHit(cache, bucket) then CACHED_FILL_OPACITY else FRESH_FILL_OPACITY
  }

  /** On a miss the new entry has one aggregated feature per element, in order, with that element's properties. */
  lemma MissEntry(cache: map<int, seq<HexFeature>>, bucket: nat, elements: seq<Feature>, h3: Geojson2h3)
    requires !IsHit(cache, bucket)
    ensures bucket in CacheAfter(cache, bucket, elements, h3)
    ensures CacheAfter(cache, bucket, elements, h3)[bucket] == DrawnEntry(cache, bucket, elements, h3)
    ensures |DrawnEntry(cache, bucket, elements, h3)| == |elements|
    ensures forall i :: 0 <= i < |elements| ==>
      DrawnEntry(cache, bucket, elements, h3)[i].polygons == Aggregate(h3, elements[i], bucket) &&
      DrawnEntry(cache, bucket, elements, h3)[i].properties == elements[i].properties
    ensures forall k :: k != bucket ==> (k in CacheAfter(cache, bucket, elements, h3) <==> k in cache)
    ensures forall k :: k != bucket && k in cache ==> CacheAfter(cache, bucket, elements, h3)[k] == cache[k]
  {
    AggregateAllPointwise(h3, elements, bucket);
  }

  /** Get-or-populate twice for the same bucket and non-empty elements aggregates at most once:
      the second run hits, draws the same features and leaves the cache alone. */
  lemma GetOrPopulateIdempotent(cache: map<int, seq<HexFeature>>, bucket: nat, elements: seq<Feature>, h3: Geojson2h3)
    requires |elements| > 0
    ensures var after := CacheAfter(cache, bucket, elements, h3);
      IsHit(after, bucket) &&
      CacheAfter(after, bucket, elements, h3) == after &&
      DrawnEntry(after, bucket, elements, h3) == DrawnEntry(cache, bucket, elements, h3)
  {
  }

  /** After the pre-fill, a non-empty dataset hits on buckets 0 to 4, so bucket `b`
      is drawn at resolution `b + 1`, whereas a cache miss aggregates at resolution `b`. */
  lemma PrefilledBucketsDrawnOneFiner(cache: map<int, seq<HexFeature>>, items: seq<Feature>, h3: Geojson2h3, bucket: nat)
    requires |items| > 0 && bucket < PREFILLED_BUCKETS
    ensures IsHit(Prefilled(cache, items, h3), bucket)
    ensures DrawnEntry(Prefilled(cache, items, h3), bucket, items, h3) == AggregateAll(h3, items, bucket + 1)
    ensures DrawnEntry(map[], bucket, items, h3) == AggregateAll(h3, items, bucket)
  {
  }

  /** Consequence: buckets 4 and 5 draw the same hexagon geometry (both at resolution 5),
      bucket 4 from the pre-filled cache and bucket 5 by aggregating on a miss. */
  lemma BucketsFourAndFiveCoincide(cache: map<int, seq<HexFeature>>, items: seq<Feature>, h3: Geojson2h3)
    requires |items| > 0 && 5 !in cache
    ensures DrawnEntry(Prefilled(cache, items, h3), 4, items, h3) == DrawnEntry(Prefilled(cache, items, h3), 5, items, h3)
    ensures DrawnOpacity(Prefilled(cache, items, h3), 4) == CACHED_FILL_OPACITY
    ensures DrawnOpacity(Prefilled(cache, items, h3), 5) == FRESH_FILL_OPACITY
  {
  }
}
