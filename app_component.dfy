/** `AppComponent`: the rendered hexagon layers, the list of pruned polygons, the
    zoom-change reset and the viewport visibility check. The map surface keeps
    every constructed polygon by id and the set of ids attached to it. */
module App {
  import opened Geo
  import opened Maps
  import opened Zoom
  import opened Rendering
  import opened Visibility
  import opened CoordinateCache
  import opened Sequences

  /** The ids `lo`, `lo + 1`, ..., `hi - 1`. */
  function IdRange(lo: nat, hi: nat): (r: seq<PolygonId>)
    requires lo <= hi
    ensures |r| == hi - lo
    ensures forall i :: 0 <= i < |r| ==> r[i] == lo + i
  {
    if lo == hi then [] else IdRange(lo, hi - 1) + [hi - 1]
  }

  /** The set of ids `lo` to `hi - 1`. */
  function IdSet(lo: nat, hi: nat): (r: set<PolygonId>)
    requires lo <= hi
    ensures forall id :: id in r <==> lo <= id < hi
  {
    if lo == hi then {} else IdSet(lo, hi - 1) + {hi - 1}
  }

  /** What drawing and visibility checks change: every `google.maps.Polygon` constructed
      so far (indexed by id), the component's `layers` list, and the ids attached to the map. */
  datatype Surface = Surface(polygons: seq<MapPolygon>, layers: seq<PolygonId>, onMap: set<PolygonId>)

  /** The surface after constructing `added` in order, attaching each one and pushing it onto `layers`. */
  function Added(s: Surface, added: seq<MapPolygon>): Surface
  {
    var lo := |s.polygons|;
    Surface(s.polygons + added, s.layers + IdRange(lo, lo + |added|), s.onMap + IdSet(lo, lo + |added|))
  }

  /** Drawing two batches one after the other is drawing them together. */
  lemma AddedTwice(s: Surface, a: seq<MapPolygon>, b: seq<MapPolygon>)
    ensures Added(Added(s, a), b) == Added(s, a + b)
  {
    var lo := |s.polygons|;
    var mid, hi := lo + |a|, lo + |a| + |b|;
    IdRangeConcat(lo, mid, hi);
    var t := Added(s, a);
    assert |t.polygons| == mid;
    assert t.polygons + b == s.polygons + (a + b);
    assert t.layers + IdRange(mid, hi) == s.layers + IdRange(lo, hi);
    assert t.onMap + IdSet(mid, hi) == s.onMap + IdSet(lo, hi);
  }

  /** Drawing the features of a list one by one is drawing the whole list. */
  lemma DrawnAppend(s: Surface, features: seq<HexFeature>, feature: HexFeature, fillOpacity: nat)
    ensures Added(Added(s, MaterialiseAll(features, fillOpacity)), Materialise(feature, fillOpacity))
         == Added(s, MaterialiseAll(features + [feature], fillOpacity))
  {
    MaterialiseAllAppend(features, feature, fillOpacity);
    AddedTwice(s, MaterialiseAll(features, fillOpacity), Materialise(feature, fillOpacity));
  }

  /** Drawing the coordinate groups one by one is drawing them all. */
  lemma GroupsPrefix(s: Surface, groups: seq<HexPolygon>, j: nat, style: Style)
    requires j < |groups|
    ensures Added(Added(s, MaterialiseGroups(groups[..j], style)), [MapPolygon(ToPath(groups[j].outer), style)])
         == Added(s, MaterialiseGroups(groups[..j + 1], style))
  {
    assert groups[..j + 1] == groups[..j] + [groups[j]];
    MaterialiseGroupsAppend(groups[..j], groups[j], style);
    AddedTwice(s, MaterialiseGroups(groups[..j], style), [MapPolygon(ToPath(groups[j].outer), style)]);
  }

  /** Drawing the features of a list one by one, by index. */
  lemma DrawnPrefix(s: Surface, features: seq<HexFeature>, i: nat, fillOpacity: nat)
    requires i < |features|
    ensures Added(Added(s, MaterialiseAll(features[..i], fillOpacity)), Materialise(features[i], fillOpacity))
         == Added(s, MaterialiseAll(features[..i + 1], fillOpacity))
  {
    assert features[..i + 1] == features[..i] + [features[i]];
    DrawnAppend(s, features[..i], features[i], fillOpacity);
  }

  /** Every listed or attached id names a constructed polygon. */
  ghost predicate Bounded(s: Surface, removed: seq<PolygonId>)
  {
    (forall id :: id in s.layers ==> id < |s.polygons|) &&
    (forall id :: id in removed ==> id < |s.polygons|) &&
    (forall id :: id in s.onMap ==> id < |s.polygons|)
  }

  /** What the component keeps between events: only layers are attached or listed as
      removed, and every layer is attached or listed as removed (or both: the two are
      not kept disjoint). */
  ghost predicate Consistent(s: Surface, removed: seq<PolygonId>)
  {
    Bounded(s, removed) &&
    (forall id :: id in s.onMap ==> id in s.layers) &&
    (forall id :: id in removed ==> id in s.layers) &&
    (forall id :: id in s.layers ==> id in s.onMap || id in removed)
  }

  /** Drawing keeps the surface consistent: the new polygons are both listed and attached,
      and nothing already drawn changes. */
  lemma AddedConsistent(s: Surface, removed: seq<PolygonId>, added: seq<MapPolygon>)
    requires Consistent(s, removed)
    ensures Consistent(Added(s, added), removed)
    ensures Added(s, added).polygons[..|s.polygons|] == s.polygons
    ensures forall id :: id in Added(s, added).layers <==> id in s.layers || |s.polygons| <= id < |s.polygons| + |added|
  {
    var t := Added(s, added);
    var newIds := IdRange(|s.polygons|, |s.polygons| + |added|);
    forall id | id in newIds
      ensures |s.polygons| <= id < |s.polygons| + |added|
    {
      var i :| 0 <= i < |newIds| && newIds[i] == id;
    }
    forall id | |s.polygons| <= id < |s.polygons| + |added|
      ensures id in newIds
    {
      assert newIds[id - |s.polygons|] == id;
    }
    assert t.polygons[..|s.polygons|] == s.polygons;
  }

  class AppComponent {
    var items: seq<Feature>
    var zoom: Option<int>
    var layers: seq<PolygonId>
    var removedPolygons: seq<PolygonId>
    /** Every `google.maps.Polygon` constructed so far, indexed by id. */
    var polygons: seq<MapPolygon>
    /** The polygons attached to the map (`setMap(this.map)` and not since `setMap(null)`). */
    var onMap: set<PolygonId>
    /** State of the `distinctUntilChanged()` operator of the zoom pipeline, not a field of
        the component in the code: `None` before the first zoom event, otherwise `Some` of the
        zoom value it let through last (that value itself undefined when `getZoom()` was). */
    var lastDistinctZoom: Option<Option<int>>
    const cacheService: CoordinateCacheService

    /** The drawing state of the component as one value. */
    function Snapshot(): Surface
      reads this
    {
      Surface(polygons, layers, onMap)
    }

    /** The invariant every event handler keeps. */
    ghost predicate Valid()
      reads this
    {
      Consistent(Snapshot(), removedPolygons)
    }

    /** The polygons whose path bounds intersect `bounds`. */
    function VisibleIds(bounds: LatLngBounds, intersects: (LatLngBounds, seq<LatLng>) -> bool): set<PolygonId>
      reads this`polygons
    {
      set id: PolygonId | id < |polygons| && intersects(bounds, polygons[id].path)
    }

    constructor (cacheService: CoordinateCacheService)
      ensures Valid()
      ensures this.cacheService == cacheService
      ensures items == [] && zoom == None && lastDistinctZoom == None
      ensures layers == [] && removedPolygons == [] && polygons == [] && onMap == {}
    {
      this.cacheService := cacheService;
      items, zoom, lastDistinctZoom := [], None, None;
      layers, removedPolygons, polygons, onMap := [], [], [], {};
    }

    /** `new google.maps.Polygon(...)`, `setMap(this.map)` and `this.layers.push(...)`. */
    method AddPolygon(polygon: MapPolygon) returns (id: PolygonId)
      modifies this`polygons, this`layers, this`onMap
      ensures id == |old(polygons)|
      ensures Snapshot() == Added(old(Snapshot()), [polygon])
    {
      id := |polygons|;
      polygons := polygons + [polygon];
      onMap := onMap + {id};
      layers := layers + [id];
    }

    /** The loop `createPolygonFromFeature` and `loadCachedPolygons` share: one attached
        polygon per coordinate group of `feature`, appended to `layers` in order. */
    method DrawFeature(feature: HexFeature, fillOpacity: nat)
      modifies this`polygons, this`layers, this`onMap
      ensures Snapshot() == Added(old(Snapshot()), Materialise(feature, fillOpacity))
    {
      var style := PolygonStyle(feature.properties, fillOpacity);
      var groups := feature.polygons;
      for j := 0 to |groups|
        invariant Snapshot() == Added(old(Snapshot()), MaterialiseGroups(groups[..j], style))
      {
        var polygonCoords := groups[j];
        var paths := ToPath(polygonCoords.outer);
        var p := MapPolygon(paths, style);
        var _ := AddPolygon(p);
        GroupsPrefix(old(Snapshot()), groups, j, style);
      }
      assert groups[..|groups|] == groups;
    }

    /** `createPolygonFromFeature(feature, properties)`: a freshly aggregated feature drawn
        with the fresh fill opacity (its geometry is always a MultiPolygon). */
    method CreatePolygonFromFeature(feature: seq<HexPolygon>, properties: Properties)
      modifies this`polygons, this`layers, this`onMap
      ensures Snapshot() == Added(old(Snapshot()), Materialise(HexFeature(feature, properties), FRESH_FILL_OPACITY))
    {
      DrawFeature(HexFeature(feature, properties), FRESH_FILL_OPACITY);
    }

    /** `loadCachedPolygons(cachedData)`: every cached feature drawn, in order, with the
        cached fill opacity. */
    method LoadCachedPolygons(cachedData: seq<HexFeature>)
      modifies this`polygons, this`layers, this`onMap
      ensures Snapshot() == Added(old(Snapshot()), MaterialiseAll(cachedData, CACHED_FILL_OPACITY))
    {
      for i := 0 to |cachedData|
        invariant Snapshot() == Added(old(Snapshot()), MaterialiseAll(cachedData[..i], CACHED_FILL_OPACITY))
      {
        var feature := cachedData[i];
        DrawFeature(feature, CACHED_FILL_OPACITY);
        DrawnPrefix(old(Snapshot()), cachedData, i, CACHED_FILL_OPACITY);
      }
      assert cachedData[..|cachedData|] == cachedData;
    }

    /** The `forEach` of `renderHexagons` on a cache miss: aggregate each element at
        `resolution`, collect it for the cache and draw it at once. */
    method AggregateAndDraw(elements: seq<Feature>, h3: Geojson2h3, resolution: nat) returns (cache: seq<HexFeature>)
      modifies this`polygons, this`layers, this`onMap
      ensures cache == AggregateAll(h3, elements, resolution)
      ensures Snapshot() == Added(old(Snapshot()), MaterialiseAll(cache, FRESH_FILL_OPACITY))
    {
      cache := [];
      for i := 0 to |elements|
        invariant cache == AggregateAll(h3, elements[..i], resolution)
        invariant Snapshot() == Added(old(Snapshot()), MaterialiseAll(cache, FRESH_FILL_OPACITY))
      {
        var response := elements[i];
        var hexagons := h3.featureToH3Set(response, resolution);
        var feature := h3.h3SetToMultiPolygon(hexagons);
        var cachedFeature := HexFeature(feature, response.properties);
        AggregateAllPrefix(h3, elements, i, resolution);
        DrawnAppend(old(Snapshot()), cache, cachedFeature, FRESH_FILL_OPACITY);
        cache := cache + [cachedFeature];
        CreatePolygonFromFeature(feature, response.properties);
      }
      assert elements[..|elements|] == elements;
    }

    /** `renderHexagons(elements)`: derive the bucket from the zoom, then draw the cached entry
        on a hit, or aggregate every element at resolution = bucket, draw it and store it. */
    method RenderHexagons(elements: seq<Feature>, h3: Geojson2h3)
      requires Valid()
      modifies this`polygons, this`layers, this`onMap, cacheService`commonZoom
      ensures Valid()
      ensures cacheService.commonZoom == CacheAfter(old(cacheService.commonZoom), Bucket(zoom), elements, h3)
      ensures Snapshot() == Added(old(Snapshot()), MaterialiseAll(
        DrawnEntry(old(cacheService.commonZoom), Bucket(zoom), elements, h3),
        DrawnOpacity(old(cacheService.commonZoom), Bucket(zoom))))
    {
      var currentZoom := Bucket(zoom);
      var cachedZoomData: Option<seq<HexFeature>> :=
        if currentZoom in cacheService.commonZoom then Some(cacheService.commonZoom[currentZoom]) else None;
      if cachedZoomData.Some? && |cachedZoomData.value| > 0 {
        LoadCachedPolygons(cachedZoomData.value);
      } else {
        var cache := AggregateAndDraw(elements, h3, currentZoom);
        cacheService.commonZoom := cacheService.commonZoom[currentZoom := cache];
      }
      AddedConsistent(old(Snapshot()), removedPolygons, MaterialiseAll(
        DrawnEntry(old(cacheService.commonZoom), Bucket(zoom), elements, h3),
        DrawnOpacity(old(cacheService.commonZoom), Bucket(zoom))));
    }

    /** `removeLayers()`: detach every layer, then forget them all. */
    method RemoveLayers()
      modifies this`onMap, this`layers
      ensures layers == [] && onMap == old(onMap) - Elements(old(layers))
    {
      for i := 0 to |layers|
        invariant layers == old(layers)
        invariant onMap == old(onMap) - Elements(layers[..i])
      {
        var layer := layers[i];
        onMap := onMap - {layer};
        assert layers[..i + 1] == layers[..i] + [layer];
        ElementsAppend(layers[..i], layer);
      }
      assert layers[..|layers|] == layers;
      layers := [];
    }

    /** The `zoom_changed` listener and the operators up to `distinctUntilChanged()`:
        empty `removedPolygons`, read the zoom, detach and drop every layer, and report
        whether the zoom passes the filter (then a rebuild follows once the debounce settles). */
    method OnZoomChanged(newZoom: Option<int>) returns (rebuild: bool)
      requires Valid()
      modifies this
      ensures Valid()
      ensures removedPolygons == [] && layers == [] && onMap == {}
      ensures zoom == newZoom
      ensures rebuild <==> old(lastDistinctZoom) != Some(newZoom)
      ensures lastDistinctZoom == Some(newZoom)
      ensures polygons == old(polygons) && items == old(items)
    {
      removedPolygons := [];
      zoom := newZoom;
      RemoveLayers();
      rebuild := lastDistinctZoom != Some(zoom);
      if rebuild {
        lastDistinctZoom := Some(zoom);
      }
    }

    /** The `aggregatedData` subscription of `onMapReady`: a non-empty dataset becomes `items`,
        the map's zoom is read and the hexagons are rendered. */
    method OnAggregatedData(res: seq<Feature>, mapZoom: Option<int>, h3: Geojson2h3)
      requires Valid()
      modifies this`items, this`zoom, this`polygons, this`layers, this`onMap, cacheService`commonZoom
      ensures Valid()
      ensures |res| == 0 ==>
        items == old(items) && zoom == old(zoom) && Snapshot() == old(Snapshot()) &&
        cacheService.commonZoom == old(cacheService.commonZoom)
      ensures |res| > 0 ==>
        items == res && zoom == mapZoom &&
        cacheService.commonZoom == CacheAfter(old(cacheService.commonZoom), Bucket(mapZoom), res, h3) &&
        Snapshot() == Added(old(Snapshot()), MaterialiseAll(
          DrawnEntry(old(cacheService.commonZoom), Bucket(mapZoom), res, h3),
          DrawnOpacity(old(cacheService.commonZoom), Bucket(mapZoom))))
    {
      if |res| > 0 {
        items := res;
        zoom := mapZoom;
        RenderHexagons(items, h3);
      }
    }

    /** The first `forEach` of `checkPolygonVisibility`: every layer whose bounds miss the
        viewport is detached and pushed onto `removedPolygons`; the layers stay listed. */
    method PruneOffScreen(b: LatLngBounds, intersects: (LatLngBounds, seq<LatLng>) -> bool)
      requires forall id :: id in layers ==> id < |polygons|
      modifies this`onMap, this`removedPolygons
      ensures removedPolygons == old(removedPolygons) + OffScreen(layers, VisibleIds(b, intersects))
      ensures onMap == old(onMap) - Elements(OffScreen(layers, VisibleIds(b, intersects)))
    {
      ghost var visible := VisibleIds(b, intersects);
      for i := 0 to |layers|
        invariant removedPolygons == old(removedPolygons) + OffScreen(layers[..i], visible)
        invariant onMap == old(onMap) - Elements(OffScreen(layers[..i], visible))
      {
        var polygon := layers[i];
        assert polygon in layers;
        OffScreenPrefix(layers, i, visible);
        if !intersects(b, polygons[polygon].path) {
          onMap := onMap - {polygon};
          removedPolygons := removedPolygons + [polygon];
        }
      }
      assert layers[..|layers|] == layers;
    }

    /** The second `forEach` of `checkPolygonVisibility`, with JavaScript's semantics: indices
        0 to the list's original length are visited while the list shrinks under `splice`. */
    method RestoreIntersecting(b: LatLngBounds, intersects: (LatLngBounds, seq<LatLng>) -> bool)
      requires forall id :: id in removedPolygons ==> id < |polygons|
      modifies this`onMap, this`removedPolygons
      ensures removedPolygons == RestorePass(old(removedPolygons), VisibleIds(b, intersects)).kept
      ensures onMap == old(onMap) + Elements(RestorePass(old(removedPolygons), VisibleIds(b, intersects)).restored)
    {
      ghost var visible := VisibleIds(b, intersects);
      ghost var outcome := RestorePass(removedPolygons, visible);
      // `done` is what the walk has passed and keeps, `todo` what it has still to look at.
      ghost var done: seq<PolygonId> := [];
      ghost var todo: seq<PolygonId> := removedPolygons;
      ghost var restored: seq<PolygonId> := [];
      var n := |removedPolygons|;
      var k := 0;
      assert forall i :: 0 <= i < |todo| ==> todo[i] in removedPolygons;
      assert AllBelow(todo, |polygons|);
      while k < n
        invariant removedPolygons == done + todo
        invariant |done| <= k <= n
        invariant |done| < k ==> todo == []
        invariant |todo| <= n - k
        invariant done + RestorePass(todo, visible).kept == outcome.kept
        invariant restored + RestorePass(todo, visible).restored == outcome.restored
        invariant AllBelow(todo, |polygons|)
        invariant onMap == old(onMap) + Elements(restored)
      {
        if k < |removedPolygons| {
          assert removedPolygons[k] == todo[0];
          var polygon: PolygonId := removedPolygons[k];
          if intersects(b, polygons[polygon].path) {
            onMap := onMap + {polygon};
            ElementsAppend(restored, polygon);
            removedPolygons := removedPolygons[..k] + removedPolygons[k + 1..];
            if |todo| == 1 {
              RestoreSpliceLast(done, todo, restored, visible);
              todo := [];
            } else {
              RestoreSpliceStep(done, todo, restored, visible);
              AllBelowSuffix(todo, |polygons|, 2);
              done, todo := done + [todo[1]], todo[2..];
            }
            restored := restored + [polygon];
          } else {
            RestoreKeepStep(done, todo, visible);
            AllBelowSuffix(todo, |polygons|, 1);
            done, todo := done + [polygon], todo[1..];
          }
        }
        k := k + 1;
      }
      assert todo == [];
    }

    /** `checkPolygonVisibility()`: with no bounds nothing happens; otherwise the prune pass
        detaches every layer off the viewport and lists it as removed (the layers stay), then
        the restore pass reattaches and splices out the listed polygons that intersect it. */
    method CheckPolygonVisibility(bounds: Option<LatLngBounds>, intersects: (LatLngBounds, seq<LatLng>) -> bool)
      requires Valid()
      modifies this`onMap, this`removedPolygons
      ensures Valid()
      ensures bounds.None? ==> removedPolygons == old(removedPolygons) && onMap == old(onMap)
      ensures bounds.Some? ==>
        var visible := VisibleIds(bounds.value, intersects);
        var pruned := OffScreen(layers, visible);
        var outcome := RestorePass(old(removedPolygons) + pruned, visible);
        removedPolygons == outcome.kept &&
        onMap == (old(onMap) - Elements(pruned)) + Elements(outcome.restored)
    {
      if bounds.None? {
        return;
      }
      PruneOffScreen(bounds.value, intersects);
      RestoreIntersecting(bounds.value, intersects);
      VisibilityConsistent(old(Snapshot()), old(removedPolygons), VisibleIds(bounds.value, intersects));
    }
  }

  /** Both passes of the visibility check keep the surface consistent. */
  lemma VisibilityConsistent(s: Surface, removed: seq<PolygonId>, visible: set<PolygonId>)
    requires Consistent(s, removed)
    ensures var pruned := OffScreen(s.layers, visible);
      var outcome := RestorePass(removed + pruned, visible);
      Consistent(Surface(s.polygons, s.layers, (s.onMap - Elements(pruned)) + Elements(outcome.restored)), outcome.kept)
  {
    var pruned := OffScreen(s.layers, visible);
    var mid := removed + pruned;
    RestoreElements(mid, visible);
  }

  /** Consecutive id ranges join up. */
  lemma IdRangeConcat(lo: nat, mid: nat, hi: nat)
    requires lo <= mid <= hi
    ensures IdRange(lo, mid) + IdRange(mid, hi) == IdRange(lo, hi)
    ensures IdSet(lo, mid) + IdSet(mid, hi) == IdSet(lo, hi)
  {
    var joined := IdRange(lo, mid) + IdRange(mid, hi);
    assert |joined| == |IdRange(lo, hi)|;
    forall i | 0 <= i < |joined| ensures joined[i] == IdRange(lo, hi)[i] {
      if i >= mid - lo {
        assert joined[i] == IdRange(mid, hi)[i - (mid - lo)];
      }
    }
  }

  /** `splice(index, 1)` at the boundary between what the walk has passed and what it has not. */
  lemma SpliceAt(done: seq<PolygonId>, todo: seq<PolygonId>)
    requires |todo| >= 1
    ensures (done + todo)[..|done|] + (done + todo)[|done| + 1..] == done + todo[1..]
  {
    assert (done + todo)[..|done|] == done;
    assert (done + todo)[|done| + 1..] == todo[1..];
  }

  /** One step of the restore walk on an intersecting polygon with a successor: splicing it
      out moves the successor under the index just visited, so the walk passes over it. */
  lemma RestoreSpliceStep(done: seq<PolygonId>, todo: seq<PolygonId>, restored: seq<PolygonId>, visible: set<PolygonId>)
    requires |todo| >= 2 && todo[0] in visible
    ensures var cur := done + todo;
      cur[..|done|] + cur[|done| + 1..] == (done + [todo[1]]) + todo[2..]
    ensures (done + [todo[1]]) + RestorePass(todo[2..], visible).kept == done + RestorePass(todo, visible).kept
    ensures (restored + [todo[0]]) + RestorePass(todo[2..], visible).restored == restored + RestorePass(todo, visible).restored
  {
    SpliceAt(done, todo);
    assert todo[1..] == [todo[1]] + todo[2..];
    var rest := RestorePass(todo[2..], visible);
    assert RestorePass(todo, visible) == RestoreOutcome([todo[1]] + rest.kept, [todo[0]] + rest.restored);
  }

  /** The walk splices out an intersecting last polygon and stops. */
  lemma RestoreSpliceLast(done: seq<PolygonId>, todo: seq<PolygonId>, restored: seq<PolygonId>, visible: set<PolygonId>)
    requires |todo| == 1 && todo[0] in visible
    ensures var cur := done + todo;
      cur[..|done|] + cur[|done| + 1..] == done
    ensures done + RestorePass([], visible).kept == done + RestorePass(todo, visible).kept
    ensures (restored + [todo[0]]) + RestorePass([], visible).restored == restored + RestorePass(todo, visible).restored
  {
    SpliceAt(done, todo);
    assert done + todo[1..] == done;
  }

  /** The walk passes over a polygon that misses the viewport, leaving it listed. */
  lemma RestoreKeepStep(done: seq<PolygonId>, todo: seq<PolygonId>, visible: set<PolygonId>)
    requires |todo| >= 1 && todo[0] !in visible
    ensures (done + [todo[0]]) + todo[1..] == done + todo
    ensures (done + [todo[0]]) + RestorePass(todo[1..], visible).kept == done + RestorePass(todo, visible).kept
    ensures RestorePass(todo[1..], visible).restored == RestorePass(todo, visible).restored
  {
    assert todo == [todo[0]] + todo[1..];
  }
}
