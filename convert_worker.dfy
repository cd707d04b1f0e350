/** The reprojection web worker: on each message it reprojects the coordinates
    of every MultiPolygon feature of a FeatureCollection and posts the document back.
    `proj4(EPSG_3857, EPSG_4326, coord)` is the parameter `project`. */
module ConvertWorker {
  import opened Geo

  /** The `type` of a document that is not a FeatureCollection (`"undefined"` when it has none,
      as for a bare array of features). */
  type OtherType = t: string | t != "FeatureCollection" witness "undefined"

  /** The message a worker receives and posts: a FeatureCollection, or any other JSON
      document, which the worker never looks into beyond its `type`. */
  datatype Message =
    | FeatureCollection(features: seq<Feature>)
    | OtherMessage(typeTag: OtherType)

  /** `ring.map(coord => proj4(..., coord))` */
  function ProjectRing(ring: Ring, project: Position -> Position): (r: Ring)
    ensures |r| == |ring|
    ensures forall k :: 0 <= k < |ring| ==> r[k] == project(ring[k])
  {
    if ring == [] then [] else [project(ring[0])] + ProjectRing(ring[1..], project)
  }

  /** `polygon.map(ring => ...)` */
  function ProjectPolygon(polygon: seq<Ring>, project: Position -> Position): (r: seq<Ring>)
    ensures |r| == |polygon|
    ensures forall j :: 0 <= j < |polygon| ==> r[j] == ProjectRing(polygon[j], project)
  {
    if polygon == [] then [] else [ProjectRing(polygon[0], project)] + ProjectPolygon(polygon[1..], project)
  }

  /** `convertMultiPolygon`: the same nesting and counts, every coordinate projected. */
  function ConvertMultiPolygon(multiPolygon: seq<seq<Ring>>, project: Position -> Position): (r: seq<seq<Ring>>)
    ensures |r| == |multiPolygon|
    ensures forall i :: 0 <= i < |multiPolygon| ==> |r[i]| == |multiPolygon[i]|
    ensures forall i, j :: 0 <= i < |multiPolygon| && 0 <= j < |multiPolygon[i]| ==>
      |r[i][j]| == |multiPolygon[i][j]|
    ensures forall i, j, k :: 0 <= i < |multiPolygon| && 0 <= j < |multiPolygon[i]| && 0 <= k < |multiPolygon[i][j]| ==>
      r[i][j][k] == project(multiPolygon[i][j][k])
  {
    if multiPolygon == [] then []
    else [ProjectPolygon(multiPolygon[0], project)] + ConvertMultiPolygon(multiPolygon[1..], project)
  }

  /** What the handler leaves in one feature. */
  function ReprojectFeature(feature: Feature, project: Position -> Position): Feature
  {
    match feature.geometry
    case MultiPolygon(polygons) => feature.(geometry := MultiPolygon(ConvertMultiPolygon(polygons, project)))
    case _ => feature
  }

  function ReprojectFeatures(features: seq<Feature>, project: Position -> Position): (r: seq<Feature>)
    ensures |r| == |features|
    ensures forall i :: 0 <= i < |features| ==> r[i] == ReprojectFeature(features[i], project)
  {
    if features == [] then [] else [ReprojectFeature(features[0], project)] + ReprojectFeatures(features[1..], project)
  }

  /** The document the handler posts for `data`. */
  function Reprojected(data: Message, project: Position -> Position): (r: Message)
    ensures data.OtherMessage? ==> r == data
    ensures data.FeatureCollection? ==> r.FeatureCollection? && |r.features| == |data.features|
    ensures data.FeatureCollection? ==> forall i :: 0 <= i < |data.features| ==>
      r.features[i].properties == data.features[i].properties &&
      r.features[i].geometry.MultiPolygon? == data.features[i].geometry.MultiPolygon?
    ensures data.FeatureCollection? ==> forall i :: 0 <= i < |data.features| && !data.features[i].geometry.MultiPolygon? ==>
      r.features[i] == data.features[i]
    ensures data.FeatureCollection? ==> forall i :: 0 <= i < |data.features| && data.features[i].geometry.MultiPolygon? ==>
      r.features[i].geometry.polygons == ConvertMultiPolygon(data.features[i].geometry.polygons, project)
  {
    match data
    case FeatureCollection(features) => FeatureCollection(ReprojectFeatures(features, project))
    case OtherMessage(_) => data
  }

  /** Reprojecting with a projection and then with its inverse gives the multipolygon back. */
  lemma {:induction false} ConvertRoundTrip(multiPolygon: seq<seq<Ring>>, forward: Position -> Position, inverse: Position -> Position)
    requires forall c :: inverse(forward(c)) == c
    ensures ConvertMultiPolygon(ConvertMultiPolygon(multiPolygon, forward), inverse) == multiPolygon
  {
    var once := ConvertMultiPolygon(multiPolygon, forward);
    var twice := ConvertMultiPolygon(once, inverse);
    forall i | 0 <= i < |multiPolygon| ensures twice[i] == multiPolygon[i] {
      forall j | 0 <= j < |multiPolygon[i]| ensures twice[i][j] == multiPolygon[i][j] {
        forall k | 0 <= k < |multiPolygon[i][j]| ensures twice[i][j][k] == multiPolygon[i][j][k] {
          assert twice[i][j][k] == inverse(once[i][j][k]);
        }
      }
    }
  }

  /** Reprojecting forward and back with an inverse that is only exact up to a tolerance `near`
      (as a floating-point inverse of proj4 is) keeps the nesting and counts, and brings every
      coordinate back near the one it started from. */
  lemma {:induction false} ConvertRoundTripNear(multiPolygon: seq<seq<Ring>>, forward: Position -> Position,
                                                 inverse: Position -> Position, near: (Position, Position) -> bool)
    requires forall c :: near(inverse(forward(c)), c)
    ensures var twice := ConvertMultiPolygon(ConvertMultiPolygon(multiPolygon, forward), inverse);
      |twice| == |multiPolygon| &&
      (forall i :: 0 <= i < |multiPolygon| ==> |twice[i]| == |multiPolygon[i]|) &&
      (forall i, j :: 0 <= i < |multiPolygon| && 0 <= j < |multiPolygon[i]| ==> |twice[i][j]| == |multiPolygon[i][j]|) &&
      (forall i, j, k :: 0 <= i < |multiPolygon| && 0 <= j < |multiPolygon[i]| && 0 <= k < |multiPolygon[i][j]| ==>
        near(twice[i][j][k], multiPolygon[i][j][k]))
  {
    var once := ConvertMultiPolygon(multiPolygon, forward);
    var twice := ConvertMultiPolygon(once, inverse);
    forall i, j, k | 0 <= i < |multiPolygon| && 0 <= j < |multiPolygon[i]| && 0 <= k < |multiPolygon[i][j]|
      ensures near(twice[i][j][k], multiPolygon[i][j][k])
    {
      assert twice[i][j][k] == inverse(forward(multiPolygon[i][j][k]));
    }
  }

  /** The worker round trip: a document reprojected forward and then back is the document. */
  lemma {:induction false} ReprojectedRoundTrip(data: Message, forward: Position -> Position, inverse: Position -> Position)
    requires forall c :: inverse(forward(c)) == c
    ensures Reprojected(Reprojected(data, forward), inverse) == data
  {
    if data.FeatureCollection? {
      var once := Reprojected(data, forward);
      var twice := Reprojected(once, inverse);
      forall i | 0 <= i < |data.features| ensures twice.features[i] == data.features[i] {
        var f := data.features[i];
        if f.geometry.MultiPolygon? {
          ConvertRoundTrip(f.geometry.polygons, forward, inverse);
        }
      }
    }
  }

  /** The worker's global scope: `postMessage` appends to `posted`. */
  class Worker {
    var posted: seq<Message>

    constructor ()
      ensures posted == []
    {
      posted := [];
    }

    /** The `message` listener: rewrites the features in place, then posts exactly one message. */
    method OnMessage(data: Message, project: Position -> Position)
      modifies this
      ensures posted == old(posted) + [Reprojected(data, project)]
    {
      var geoJson := data;
      if geoJson.FeatureCollection? {
        var features := geoJson.features;
        for i := 0 to |features|
          invariant |features| == |data.features|
          invariant forall j :: 0 <= j < i ==> features[j] == ReprojectFeature(data.features[j], project)
          invariant forall j :: i <= j < |features| ==> features[j] == data.features[j]
        {
          var feature := features[i];
          if feature.geometry.MultiPolygon? {
            var converted := ConvertMultiPolygon(feature.geometry.polygons, project);
            features := features[i := feature.(geometry := MultiPolygon(converted))];
          }
        }
        geoJson := FeatureCollection(features);
        assert features == ReprojectFeatures(data.features, project);
      }
      posted := posted + [geoJson];
    }
  }
}
