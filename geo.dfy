/** GeoJSON values the core reads, and the two geojson2h3 primitives it calls,
    kept as uninterpreted deterministic functions. */
module Geo {

  datatype Option<+T> = None | Some(value: T)

  /** A GeoJSON position `[x, y]` (longitude and latitude once reprojected). */
  datatype Position = Position(x: real, y: real)

  type Ring = seq<Position>

  /** The geometry types the core distinguishes; other GeoJSON types behave like
      Point and LineString here (the core never looks inside them). */
  datatype Geometry =
    | Point(point: Position)
    | LineString(line: seq<Position>)
    | Polygon(rings: seq<Ring>)
    | MultiPolygon(polygons: seq<seq<Ring>>)

  /** Feature properties, each value as JavaScript's string conversion renders it. */
  type Properties = map<string, string>

  /** A region feature of the dataset. */
  datatype Feature = Feature(geometry: Geometry, properties: Properties)

  /** `properties['COLOR_HEX']` as `'#' + color` sees it: a missing key is `undefined`. */
  function ColorOf(properties: Properties): string
  {
    if "COLOR_HEX" in properties then properties["COLOR_HEX"] else "undefined"
  }

  /** One polygon of the MultiPolygon that geojson2h3 merges from a cell set:
      its outer loop (coordinate group element 0) and its holes. */
  datatype HexPolygon = HexPolygon(outer: Ring, holes: seq<Ring>)

  /** An aggregated feature: hexagon MultiPolygon geometry plus the source region's properties. */
  datatype HexFeature = HexFeature(polygons: seq<HexPolygon>, properties: Properties)

  type H3Index = string

  /** The geojson2h3 library: `featureToH3Set(feature, resolution)` and
      the coordinates of `h3SetToMultiPolygonFeature(cells)`. Being Dafny functions they are deterministic. */
  datatype Geojson2h3 = Geojson2h3(
    featureToH3Set: (Feature, int) -> set<H3Index>,
    h3SetToMultiPolygon: set<H3Index> -> seq<HexPolygon>)

  /** The hexagon geometry of one region at one resolution. */
  function Aggregate(h3: Geojson2h3, feature: Feature, resolution: int): seq<HexPolygon>
  {
    h3.h3SetToMultiPolygon(h3.featureToH3Set(feature, resolution))
  }

  /** The aggregated features of a list of regions, as both cache fills build them:
      `{ ...h3SetToMultiPolygonFeature(featureToH3Set(el, resolution)), properties: el.properties }`. */
  function AggregateAll(h3: Geojson2h3, features: seq<Feature>, resolution: int): seq<HexFeature>
  {
    if features == [] then []
    else
      var head := HexFeature(Aggregate(h3, features[0], resolution), features[0].properties);
      [head] + AggregateAll(h3, features[1..], resolution)
  }

  /** One aggregated feature per region, in order: the region's hexagon geometry at
      `resolution`, carrying the region's own properties. */
  lemma {:induction false} AggregateAllPointwise(h3: Geojson2h3, features: seq<Feature>, resolution: int)
    ensures |AggregateAll(h3, features, resolution)| == |features|
    ensures forall i :: 0 <= i < |features| ==>
      AggregateAll(h3, features, resolution)[i].polygons == Aggregate(h3, features[i], resolution) &&
      AggregateAll(h3, features, resolution)[i].properties == features[i].properties
  {
    if features != [] {
      AggregateAllPointwise(h3, features[1..], resolution);
    }
  }

  /** Aggregating a list is aggregating its parts: the cache fills may build an entry element by element. */
  lemma {:induction false} AggregateAllAppend(h3: Geojson2h3, features: seq<Feature>, more: seq<Feature>, resolution: int)
    ensures AggregateAll(h3, features + more, resolution)
         == AggregateAll(h3, features, resolution) + AggregateAll(h3, more, resolution)
  {
    var l := AggregateAll(h3, features + more, resolution);
    var r := AggregateAll(h3, features, resolution) + AggregateAll(h3, more, resolution);
    AggregateAllPointwise(h3, features + more, resolution);
    AggregateAllPointwise(h3, features, resolution);
    AggregateAllPointwise(h3, more, resolution);
    assert |l| == |r|;
    forall i | 0 <= i < |l| ensures l[i] == r[i] {
      if i < |features| {
        assert (features + more)[i] == features[i];
      } else {
        assert (features + more)[i] == more[i - |features|];
      }
    }
  }

  /** Aggregating one more region of a list appends its aggregated feature. */
  lemma AggregateAllPrefix(h3: Geojson2h3, features: seq<Feature>, i: nat, resolution: int)
    requires i < |features|
    ensures AggregateAll(h3, features[..i + 1], resolution)
         == AggregateAll(h3, features[..i], resolution) + [HexFeature(Aggregate(h3, features[i], resolution), features[i].properties)]
  {
    assert features[..i + 1] == features[..i] + [features[i]];
    AggregateAllAppend(h3, features[..i], [features[i]], resolution);
  }
}
