# Hexagon overlay core of angular-google-maps-hexagons

This project models the core of an Angular application. The application shows geographic regions on a Google map as hexagon cells. The model covers four parts:

- **Reprojection worker.** It converts the coordinates of every MultiPolygon feature of the dataset from EPSG:3857 to EPSG:4326.
- **Hexagon aggregation.** Each region becomes a set of H3 cells at a resolution, and the cells are merged back into one MultiPolygon. The region keeps its properties.
- **Resolution cache.** It maps a resolution bucket to the aggregated features of that bucket. `processCache` pre-fills buckets 0 to 4, and `renderHexagons` does a get-or-populate on it.
- **Map component.** It draws one Google Maps polygon per coordinate group, records them in `layers` and detaches them all on a zoom change. On a bounds change it prunes the polygons that miss the viewport into `removedPolygons` and restores the listed polygons that intersect it, except the one right after each polygon it restores.

External libraries and map queries are parameters of the model:

- geojson2h3 is recorded as two functions (`Geo.Geojson2h3`): `featureToH3Set(feature, resolution)`, and `h3SetToMultiPolygon(cells)`, which stands for the geometry coordinates of `h3SetToMultiPolygonFeature(cells)`.
- proj4 is the function `project`.
- `map.getZoom()` and `map.getBounds()` are arguments.
- `bounds.intersects(bounds of path)` is the function `intersects`.

Polygons are identified by integers, in the order they were constructed. `AppComponent.polygons` holds every constructed polygon, and `AppComponent.onMap` is the set of ids currently attached with `setMap(this.map)`.

Module layout: `Geo` (GeoJSON values and geojson2h3), `Maps` (map values and drawing constants), `Sequences`, `Zoom`, `Rendering`, `Visibility`, `CoordinateCache`, `ConvertWorker` and `App`.

Behaviour of the code the model keeps:

- The bucket `zoom - 2` has no upper clamp: zoom 10 gives bucket 8 (`Zoom.BucketUnclamped`). The map option `maxZoom: 7` bounds it by 5 (`Zoom.BucketUnderMaxZoom`).
- `distinctUntilChanged()` compares zoom values, not buckets.
- `removeLayers` runs on every zoom event, before the distinct filter.
- The pre-fill writes bucket `a` at resolution `a + 1`, while a cache miss aggregates bucket `b` at resolution `b`. So buckets 0 to 4 are drawn one resolution finer than a miss would draw them, and buckets 4 and 5 draw the same hexagons (`Rendering.BucketsFourAndFiveCoincide`).
- A polygon can be attached and listed as removed at the same time, and can be listed twice. The prune pass lists every off-screen layer, including ones already listed. The restore pass uses `splice` inside `forEach`, so it skips the element after each restored polygon. What the component does keep is that every layer is attached or listed, and only layers are either (`App.Consistent`). `Visibility.AdjacentIntersectingSecondSkipped` and `Visibility.DuplicateStaysListed` exhibit the rest.
- Fill opacity is 0.4 right after aggregation and 0.6 when drawn from the cache.
- An exception thrown by geojson2h3 is not modelled: its two functions are total here.

## Model

| member | source | states |
|---|---|---|
| Geo.Aggregate | src/app/app.component.ts:110-111 | definition, no contract: the coordinates of `h3SetToMultiPolygonFeature(featureToH3Set(region, resolution))` |
| Geo.AggregateAll | src/app/services/coordinate-cache.service.ts:18-27 | definition, no contract: the aggregated features of a list of regions; its properties are Geo.AggregateAllPointwise and Geo.AggregateAllAppend |
| Geo.ColorOf | src/app/app.component.ts:132 | definition, no contract: `properties['COLOR_HEX']`, with a missing key rendered as `undefined` |
| Geo.AggregateAllPointwise | src/app/app.component.ts:109-116 | one aggregated feature per region, in order, with the geometry of `h3SetToMultiPolygonFeature(featureToH3Set(region, resolution))` and the region's own properties |
| Geo.AggregateAllAppend | src/app/services/coordinate-cache.service.ts:18-27 | aggregating a concatenation is concatenating the aggregations, so the entry may be built element by element |
| Geo.AggregateAllPrefix | src/app/app.component.ts:109-116 | aggregating one more region appends exactly its aggregated feature |
| Zoom.Bucket | src/app/app.component.ts:99 | definition, no contract: the bucket derived from the zoom, with JavaScript truthiness; its properties are the Zoom.Bucket* lemmas |
| Zoom.BucketRule | src/app/app.component.ts:99 | the bucket is zoom minus 2 from zoom 2 on, and 0 for an unknown zoom or a zoom below 2 |
| Zoom.BucketMonotone | src/app/app.component.ts:99 | the bucket never decreases as the zoom grows |
| Zoom.BucketUnclamped | src/app/app.component.ts:99 | every natural number is the bucket of some zoom (no upper clamp) |
| Zoom.BucketUnderMaxZoom | src/app/app.component.ts:20-25 | up to the map's maximum zoom 7 the bucket is at most 5 |
| Zoom.DistinctFrom | src/app/app.component.ts:74 | definition, no contract: `distinctUntilChanged()` continued from the value it emitted last |
| Zoom.DistinctUntilChanged | src/app/app.component.ts:74 | definition, no contract: `distinctUntilChanged()` from its start |
| Zoom.DistinctFromShape | src/app/app.component.ts:74 | the filter emits a subsequence of the events with no value twice in a row, its first output differs from the value last emitted, and every event value is emitted or equals the value last emitted (the exact per-event rule is Zoom.DistinctFromStep) |
| Zoom.DistinctUntilChangedShape | src/app/app.component.ts:74 | emitted zooms are a subsequence of the events, no two consecutive ones are equal, and a value occurs among the events iff it is emitted |
| Zoom.DistinctFromLast | src/app/app.component.ts:74 | after any events the last emitted value is the latest event |
| Zoom.DistinctStep | src/app/app.component.ts:74 | a new event is emitted exactly when it differs from the previous event |
| Zoom.DistinctFromStep | src/app/app.component.ts:74 | a new event is emitted exactly when it differs from the value last compared |
| Rendering.ToPath | src/app/app.component.ts:129 | definition, no contract: the vertices of an outer loop; its properties are Rendering.ToPathPointwise |
| Rendering.ToPathPointwise | src/app/app.component.ts:129 | the path has one vertex per position of the outer loop, with lat the position's y and lng its x |
| Rendering.PolygonStyle | src/app/app.component.ts:134-141 | definition, no contract: the polygon options, stroke `#000000` at 0.8 with weight 2 and fill `'#' + COLOR_HEX` at the given opacity (the same literal as lines 155-162) |
| Rendering.MaterialiseGroups | src/app/app.component.ts:128-146 | definition, no contract: one polygon per coordinate group, its path the group's outer loop (the same loop as lines 152-167) |
| Rendering.MaterialiseGroupsPointwise | src/app/app.component.ts:128-146 | one polygon per coordinate group, in order, its path the group's outer loop, all with the same options |
| Rendering.MaterialiseGroupsAppend | src/app/app.component.ts:128-146 | drawing one more coordinate group appends exactly its polygon |
| Rendering.Materialise | src/app/app.component.ts:128-146 | definition, no contract: the polygons drawn for one feature; its properties are Rendering.MaterialiseShape |
| Rendering.MaterialiseShape | src/app/app.component.ts:128-141 | a feature draws one polygon per coordinate group, filled with `'#' + COLOR_HEX` at the given opacity and stroked black at 0.8 with weight 2 |
| Rendering.MaterialiseAll | src/app/app.component.ts:150-169 | definition, no contract: the polygons drawn for a list of features, feature after feature |
| Rendering.MaterialiseAllAppend | src/app/app.component.ts:150-169 | drawing one more feature appends exactly that feature's polygons |
| Rendering.MaterialiseAllLength | src/app/app.component.ts:150-169 | a list of features draws exactly as many polygons as it has coordinate groups |
| Rendering.IsHit | src/app/app.component.ts:102-104 | definition, no contract: the bucket has a non-empty cache entry |
| Rendering.DrawnEntry | src/app/app.component.ts:102-116 | definition, no contract: the cached entry on a hit, the elements aggregated at resolution = bucket on a miss |
| Rendering.CacheAfter | src/app/app.component.ts:102-118 | definition, no contract: the cache unchanged on a hit, the bucket set to the fresh aggregation on a miss |
| Rendering.DrawnOpacity | src/app/app.component.ts:104-115 | definition, no contract: 0.6 on a hit (line 161), 0.4 on a miss (line 140) |
| Rendering.MissEntry | src/app/app.component.ts:106-118 | on a miss the cache gets the bucket's entry, which is what is drawn: one feature per element aggregated at resolution = bucket, and every other key keeps its presence and value |
| Rendering.GetOrPopulateIdempotent | src/app/app.component.ts:102-118 | for non-empty elements a second get-or-populate of the same bucket hits, draws the same features and leaves the cache unchanged |
| Rendering.PrefilledBucketsDrawnOneFiner | src/app/services/coordinate-cache.service.ts:15-29 | after the pre-fill, buckets 0 to 4 hit and draw resolution bucket + 1, while a miss on an empty cache draws resolution bucket |
| Rendering.BucketsFourAndFiveCoincide | src/app/services/coordinate-cache.service.ts:19 | after the pre-fill, buckets 4 and 5 draw identical features, bucket 4 as cached (0.6) and bucket 5 as fresh (0.4) |
| Visibility.OffScreen | src/app/app.component.ts:180-188 | an id is pushed iff it is a layer that does not intersect the viewport |
| Visibility.OffScreenAppend | src/app/app.component.ts:180-188 | the prune pass walks the layers front to back with one push per off-screen layer |
| Visibility.OffScreenPrefix | src/app/app.component.ts:180-188 | one more prune step pushes the layer iff it misses the viewport |
| Visibility.OffScreenIsSubsequence | src/app/app.component.ts:180-188 | the pushed polygons keep layer order |
| Visibility.RestorePass | src/app/app.component.ts:190-198 | definition, no contract: the splice-during-`forEach` walk, whose visible head is restored and whose next element is skipped; App.AppComponent.RestoreIntersecting is proved equal to it, and its properties are the Restore* lemmas |
| Visibility.RestoreKeptIsSubsequence | src/app/app.component.ts:190-198 | the polygons left listed keep their order |
| Visibility.RestoreConserves | src/app/app.component.ts:190-198 | as a multiset, the list before the restore pass is what stays listed plus what is reattached |
| Visibility.RestoreElements | src/app/app.component.ts:190-198 | a polygon was listed iff it stays listed or is reattached |
| Visibility.RestoreOnlyVisible | src/app/app.component.ts:194-196 | only intersecting polygons are reattached, and a listed polygon that misses the viewport stays listed |
| Visibility.RestoreSkipsAtMostOnePerRestore | src/app/app.component.ts:190-198 | the intersecting polygons left listed are at most as many as the polygons reattached |
| Visibility.RestorePassWithoutNeighbours | src/app/app.component.ts:190-198 | with no two intersecting polygons side by side, the pass reattaches every intersecting one and keeps exactly the others |
| Visibility.AdjacentIntersectingSecondSkipped | src/app/app.component.ts:196 | of two adjacent intersecting polygons the first is reattached and the second stays listed |
| Visibility.DuplicateStaysListed | src/app/app.component.ts:180-198 | a polygon listed twice is reattached and still listed |
| CoordinateCache.PrefillResolution | src/app/services/coordinate-cache.service.ts:19 | definition, no contract: the pre-fill aggregates bucket `a` at resolution `a + 1` |
| CoordinateCache.Prefilled | src/app/services/coordinate-cache.service.ts:13-32 | buckets 0 to 4 hold the entry at resolution bucket + 1, and every other key is present and valued as before |
| CoordinateCache.PrefilledEntry | src/app/services/coordinate-cache.service.ts:15-29 | each pre-filled entry has one feature per region, in order, aggregated at resolution bucket + 1 with the region's properties |
| CoordinateCache.PrefilledIdempotent | src/app/services/coordinate-cache.service.ts:13-32 | running the pre-fill twice on the same regions is running it once |
| CoordinateCache.CoordinateCacheService.constructor | src/app/services/coordinate-cache.service.ts:9 | the cache starts with no entries |
| CoordinateCache.CoordinateCacheService.AggregateEntry | src/app/services/coordinate-cache.service.ts:16-27 | the inner loop builds the aggregated entry of the regions at the given resolution |
| CoordinateCache.CoordinateCacheService.ProcessCache | src/app/services/coordinate-cache.service.ts:13-32 | the cache becomes its pre-filled version |
| ConvertWorker.ProjectRing | src/app/convert.worker.ts:9 | same length, every coordinate projected |
| ConvertWorker.ProjectPolygon | src/app/convert.worker.ts:8-10 | same number of rings, each ring projected |
| ConvertWorker.ConvertMultiPolygon | src/app/convert.worker.ts:6-12 | same nesting and counts at every level, and every coordinate is the projection of the one at the same place |
| ConvertWorker.ReprojectFeature | src/app/convert.worker.ts:19-21 | definition, no contract: a MultiPolygon feature gets converted coordinates, any other feature is left alone |
| ConvertWorker.ReprojectFeatures | src/app/convert.worker.ts:18-22 | same number of features, each reprojected at its own index |
| ConvertWorker.Reprojected | src/app/convert.worker.ts:14-25 | other documents pass through unchanged; for a FeatureCollection, properties and geometry kinds stay, non-MultiPolygon features are untouched and MultiPolygon coordinates are converted |
| ConvertWorker.ConvertRoundTrip | src/app/convert.worker.ts:6-12 | converting forward and then with an inverse projection gives the multipolygon back |
| ConvertWorker.ConvertRoundTripNear | src/app/convert.worker.ts:6-12 | with an inverse exact only up to a tolerance `near`, converting forward and back keeps the counts at every level and brings every coordinate back near its original |
| ConvertWorker.ReprojectedRoundTrip | src/app/convert.worker.ts:14-25 | the worker's output reprojected with the inverse projection is the original document |
| ConvertWorker.Worker.OnMessage | src/app/convert.worker.ts:14-25 | exactly one message is posted, and it is the reprojected document |
| App.Added | src/app/app.component.ts:134-144 | definition, no contract: the surface after constructing, attaching and pushing a batch of polygons, with the next free ids |
| App.AddedTwice | src/app/app.component.ts:143-144 | drawing two batches one after the other is drawing them together |
| App.DrawnAppend | src/app/app.component.ts:150-169 | drawing the features of a list one by one is drawing the list |
| App.GroupsPrefix | src/app/app.component.ts:128-146 | drawing the coordinate groups one by one is drawing them all |
| App.DrawnPrefix | src/app/app.component.ts:151-168 | drawing cached features one by one, by index, is drawing the prefix |
| App.AddedConsistent | src/app/app.component.ts:143-144 | drawing keeps the component consistent, leaves the earlier polygons alone, and adds exactly the new ids to the layers |
| App.VisibilityConsistent | src/app/app.component.ts:176-199 | the prune and restore passes keep the component consistent |
| App.AppComponent.constructor | src/app/app.component.ts:27-31 | no items, no zoom, no layers, nothing listed as removed, nothing drawn |
| App.AppComponent.AddPolygon | src/app/app.component.ts:134-144 | the polygon gets the next id, is recorded, attached and pushed onto the layers |
| App.AppComponent.DrawFeature | src/app/app.component.ts:128-146 | the surface gains exactly the feature's polygons, attached and appended to the layers in order |
| App.AppComponent.CreatePolygonFromFeature | src/app/app.component.ts:124-148 | the surface gains the aggregated feature's polygons at fill opacity 0.4 |
| App.AppComponent.LoadCachedPolygons | src/app/app.component.ts:150-169 | the surface gains every cached feature's polygons, in order, at fill opacity 0.6 |
| App.AppComponent.AggregateAndDraw | src/app/app.component.ts:107-116 | the collected entry is the elements aggregated at the bucket, and exactly its polygons are drawn at fill opacity 0.4 |
| App.AppComponent.RenderHexagons | src/app/app.component.ts:98-122 | the cache becomes CacheAfter (unchanged on a hit, the fresh entry stored on a miss), the DrawnEntry features are drawn at the DrawnOpacity, and consistency is kept |
| App.AppComponent.RemoveLayers | src/app/app.component.ts:171-174 | every layer is detached and the layers are emptied |
| App.AppComponent.OnZoomChanged | src/app/app.component.ts:63-74 | the removed list, the layers and the attached set become empty, the zoom is the new one, and a rebuild follows iff the zoom differs from the last distinct one |
| App.AppComponent.OnAggregatedData | src/app/app.component.ts:46-55 | an empty dataset changes nothing; otherwise items and zoom are set and the hexagons rendered, as in RenderHexagons |
| App.AppComponent.VisibleIds | src/app/app.component.ts:181-184 | definition, no contract: the constructed polygons whose path passes `intersects` with the viewport, the test both passes make (also lines 191-194) |
| App.AppComponent.PruneOffScreen | src/app/app.component.ts:180-188 | the off-screen layers, in layer order, are pushed onto the removed list and detached |
| App.AppComponent.RestoreIntersecting | src/app/app.component.ts:190-198 | the removed list becomes RestorePass's kept list, and exactly its restored polygons are reattached |
| App.AppComponent.CheckPolygonVisibility | src/app/app.component.ts:176-199 | without bounds nothing changes; otherwise prune then restore, with consistency kept |

## Left out

- `debounceTime(800)` and the rxjs plumbing: time is not modelled. `App.AppComponent.OnZoomChanged` returns whether a rebuild follows, and the rebuild is `RenderHexagons` called afterwards with the settled zoom.
- App.AppComponent.OnZoomChanged: models the listener, `removeLayers` and the distinct filter as one step per event. Several events inside one debounce window collapse into one rebuild; the model does not express this, and the `Zoom` lemmas cover only `distinctUntilChanged`.
- `NgZone.runOutsideAngular`, the `loading` flag, `takeUntilDestroyed` and listener removal do not affect the map state.
- `map.getZoom()` and `map.getBounds()` are I/O and become arguments.
- The internals of geojson2h3 and proj4 are external libraries. They are modelled as deterministic function parameters.
- The bounds of a path and `LatLngBounds.intersects` are Google Maps geometry. They are modelled by the parameter `intersects`.
- `coordinate-conversion.service.ts` (dataset fetch, worker start-up, `processCache` call) and `app.config.ts` are not part of this model. They are wiring around the core.
- Null geometry, null properties and fractional zoom values are left out. Features always carry a geometry and a property map, and zooms are integers.
- The `Polygon`/`MultiPolygon` guard in `createPolygonFromFeature` is always true for geojson2h3 output, so aggregated features are typed as MultiPolygons. Holes are carried but never drawn, as in the code.
- Property values are strings as `'#' + value` renders them. A missing `COLOR_HEX` renders as `"undefined"`.
- The worker mutates the received document in place before posting it. The model posts the rewritten copy, which is the same value, because nothing else observes the original.
- A document whose `type` is not `FeatureCollection` is posted back untouched, so the model keeps only its `type` and not its content.
