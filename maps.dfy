/** The parts of the Google Maps surface the core touches: vertices, viewport
    bounds and the polygons it constructs. Attachment (`setMap`) is state of the
    component, held by polygon id. */
module Maps {

  datatype LatLng = LatLng(lat: real, lng: real)

  /** A viewport as `map.getBounds()` reports it. */
  datatype LatLngBounds = LatLngBounds(south: real, west: real, north: real, east: real)

  /** Index of a constructed `google.maps.Polygon` in the order of construction. */
  type PolygonId = nat

  /** Polygon options; opacities are in hundredths (0.8 is 80). */
  datatype Style = Style(
    strokeColor: string,
    strokeOpacity: nat,
    strokeWeight: nat,
    fillColor: string,
    fillOpacity: nat)

  /** A constructed `google.maps.Polygon`: its path never changes after construction. */
  datatype MapPolygon = MapPolygon(path: seq<LatLng>, style: Style)

  const STROKE_COLOR := "#000000"
  const STROKE_OPACITY := 80
  const STROKE_WEIGHT := 2
  /** Fill opacity of polygons drawn straight after aggregation (0.4). */
  const FRESH_FILL_OPACITY := 40
  /** Fill opacity of polygons drawn from a cache entry (0.6). */
  const CACHED_FILL_OPACITY := 60
}
