/** The two passes of `checkPolygonVisibility` as functions of the lists they
    walk and of the set of polygons whose bounds intersect the viewport. */
module Visibility {
  import opened Maps
  import opened Sequences

  /** What the prune pass pushes onto `removedPolygons`: the layers whose bounds
      do not intersect the viewport, in layer order. */
  function OffScreen(layers: seq<PolygonId>, visible: set<PolygonId>): (r: seq<PolygonId>)
    ensures forall id :: id in r <==> id in layers && id !in visible
  {
    if layers == [] then []
    else if layers[0] in visible then OffScreen(layers[1..], visible)
    else [layers[0]] + OffScreen(layers[1..], visible)
  }

  /** The prune pass walks the layers front to back, one push per off-screen layer. */
  lemma {:induction false} OffScreenAppend(layers: seq<PolygonId>, id: PolygonId, visible: set<PolygonId>)
    ensures OffScreen(layers + [id], visible) == OffScreen(layers, visible) + (if id in visible then [] else [id])
  {
    if layers == [] {
      assert [] + [id] == [id];
    } else {
      assert (layers + [id])[1..] == layers[1..] + [id];
      OffScreenAppend(layers[1..], id, visible);
    }
  }

  /** One more step of the prune pass. */
  lemma OffScreenPrefix(layers: seq<PolygonId>, i: nat, visible: set<PolygonId>)
    requires i < |layers|
    ensures OffScreen(layers[..i + 1], visible)
         == OffScreen(layers[..i], visible) + (if layers[i] in visible then [] else [layers[i]])
    ensures Elements(OffScreen(layers[..i + 1], visible))
         == Elements(OffScreen(layers[..i], visible)) + (if layers[i] in visible then {} else {layers[i]})
  {
    assert layers[..i + 1] == layers[..i] + [layers[i]];
    OffScreenAppend(layers[..i], layers[i], visible);
    ElementsAppend(OffScreen(layers[..i], visible), layers[i]);
  }

  /** The pushed polygons keep layer order. */
  lemma {:induction false} OffScreenIsSubsequence(layers: seq<PolygonId>, visible: set<PolygonId>)
    ensures IsSubsequence(OffScreen(layers, visible), layers)
  {
    if layers != [] {
      OffScreenIsSubsequence(layers[1..], visible);
    }
  }

  /** The outcome of the restore pass: the list left in `removedPolygons`, and
      the polygons reattached, in the order `setMap(this.map)` is called on them. */
  datatype RestoreOutcome = RestoreOutcome(kept: seq<PolygonId>, restored: seq<PolygonId>)

  /** `removedPolygons.forEach((polygon, index) => ... splice(index, 1))` with JavaScript's
      `forEach`: after a splice the next element moves to the index just visited, so the
      element right after a restored one is never looked at in that call. */
  function RestorePass(removed: seq<PolygonId>, visible: set<PolygonId>): RestoreOutcome
    decreases |removed|
  {
    if removed == [] then RestoreOutcome([], [])
    else if removed[0] in visible then
      if |removed| == 1 then RestoreOutcome([], [removed[0]])
      else
        var rest := RestorePass(removed[2..], visible);
        RestoreOutcome([removed[1]] + rest.kept, [removed[0]] + rest.restored)
    else
      var rest := RestorePass(removed[1..], visible);
      RestoreOutcome([removed[0]] + rest.kept, rest.restored)
  }

  /** Number of elements of `s` that are in `visible`. */
  function CountVisible(s: seq<PolygonId>, visible: set<PolygonId>): nat
  {
    if s == [] then 0 else (if s[0] in visible then 1 else 0) + CountVisible(s[1..], visible)
  }

  /** The polygons left in the list keep their order. */
  lemma {:induction false} RestoreKeptIsSubsequence(removed: seq<PolygonId>, visible: set<PolygonId>)
    ensures IsSubsequence(RestorePass(removed, visible).kept, removed)
    decreases |removed|
  {
    if removed != [] {
      var o := RestorePass(removed, visible);
      if removed[0] in visible {
        if |removed| > 1 {
          RestoreKeptIsSubsequence(removed[2..], visible);
          assert removed[1..][1..] == removed[2..];
          assert o.kept[1..] == RestorePass(removed[2..], visible).kept;
          assert IsSubsequence(o.kept, removed[1..]);
        }
      } else {
        RestoreKeptIsSubsequence(removed[1..], visible);
        assert o.kept[1..] == RestorePass(removed[1..], visible).kept;
      }
    }
  }

  /** Nothing is lost or invented: the list before the pass is, as a multiset, what is kept
      plus what is restored. */
  lemma {:induction false} RestoreConserves(removed: seq<PolygonId>, visible: set<PolygonId>)
    ensures multiset(removed) == multiset(RestorePass(removed, visible).kept) + multiset(RestorePass(removed, visible).restored)
    decreases |removed|
  {
    if removed != [] {
      if removed[0] in visible {
        if |removed| > 1 {
          RestoreConserves(removed[2..], visible);
          RestoreConservesStep(removed, visible);
        }
      } else {
        RestoreConserves(removed[1..], visible);
        RestoreConservesKeep(removed, visible);
      }
    }
  }

  lemma RestoreConservesStep(removed: seq<PolygonId>, visible: set<PolygonId>)
    requires |removed| > 1 && removed[0] in visible
    requires multiset(removed[2..]) == multiset(RestorePass(removed[2..], visible).kept) + multiset(RestorePass(removed[2..], visible).restored)
    ensures multiset(removed) == multiset(RestorePass(removed, visible).kept) + multiset(RestorePass(removed, visible).restored)
  {
    var rest := RestorePass(removed[2..], visible);
    assert removed == [removed[0]] + ([removed[1]] + removed[2..]);
    SwapConserves(removed[0], removed[1], removed[2..], rest.kept, rest.restored);
  }

  /** A list split in two stays split in two when its first element joins the second part
      and its second element the first. */
  lemma SwapConserves(x: PolygonId, y: PolygonId, rest: seq<PolygonId>, kept: seq<PolygonId>, restored: seq<PolygonId>)
    requires multiset(rest) == multiset(kept) + multiset(restored)
    ensures multiset([x] + ([y] + rest)) == multiset([y] + kept) + multiset([x] + restored)
  {
    assert multiset([x] + ([y] + rest)) == multiset{x} + (multiset{y} + multiset(rest));
  }

  lemma RestoreConservesKeep(removed: seq<PolygonId>, visible: set<PolygonId>)
    requires |removed| > 0 && removed[0] !in visible
    requires multiset(removed[1..]) == multiset(RestorePass(removed[1..], visible).kept) + multiset(RestorePass(removed[1..], visible).restored)
    ensures multiset(removed) == multiset(RestorePass(removed, visible).kept) + multiset(RestorePass(removed, visible).restored)
  {
    var rest := RestorePass(removed[1..], visible);
    assert removed == [removed[0]] + removed[1..];
    assert multiset([removed[0]] + rest.kept) == multiset{removed[0]} + multiset(rest.kept);
  }

  /** A polygon is in the list before the pass exactly when it is kept or restored. */
  lemma RestoreElements(removed: seq<PolygonId>, visible: set<PolygonId>)
    ensures forall id :: id in removed <==> id in RestorePass(removed, visible).kept || id in RestorePass(removed, visible).restored
  {
    RestoreConserves(removed, visible);
    var o := RestorePass(removed, visible);
    forall id
      ensures id in removed <==> id in o.kept || id in o.restored
    {
      assert id in removed <==> id in multiset(removed);
      assert id in o.kept <==> id in multiset(o.kept);
      assert id in o.restored <==> id in multiset(o.restored);
    }
  }

  /** Every reattached polygon intersects the viewport, and a polygon that does not
      intersect it is never reattached and stays listed. */
  lemma {:induction false} RestoreOnlyVisible(removed: seq<PolygonId>, visible: set<PolygonId>)
    ensures forall id :: id in RestorePass(removed, visible).restored ==> id in visible
    ensures forall id :: id in removed && id !in visible ==> id in RestorePass(removed, visible).kept
    decreases |removed|
  {
    if removed != [] {
      if removed[0] in visible {
        if |removed| > 1 {
          RestoreOnlyVisible(removed[2..], visible);
          assert removed == [removed[0]] + [removed[1]] + removed[2..];
        }
      } else {
        RestoreOnlyVisible(removed[1..], visible);
        assert removed == [removed[0]] + removed[1..];
      }
    }
  }

  /** At most one intersecting polygon is left behind per polygon restored. */
  lemma {:induction false} RestoreSkipsAtMostOnePerRestore(removed: seq<PolygonId>, visible: set<PolygonId>)
    ensures CountVisible(RestorePass(removed, visible).kept, visible) <= |RestorePass(removed, visible).restored|
    decreases |removed|
  {
    if removed != [] {
      var o := RestorePass(removed, visible);
      if removed[0] in visible {
        if |removed| > 1 {
          RestoreSkipsAtMostOnePerRestore(removed[2..], visible);
          assert o.kept[1..] == RestorePass(removed[2..], visible).kept;
        }
      } else {
        RestoreSkipsAtMostOnePerRestore(removed[1..], visible);
        assert o.kept[1..] == RestorePass(removed[1..], visible).kept;
      }
    }
  }

  /** When no two polygons that intersect the viewport stand side by side in the list,
      the pass restores every one of them and keeps exactly the others. */
  lemma {:induction false} RestorePassWithoutNeighbours(removed: seq<PolygonId>, visible: set<PolygonId>)
    requires forall i :: 0 <= i < |removed| - 1 ==> !(removed[i] in visible && removed[i + 1] in visible)
    ensures RestorePass(removed, visible).kept == OffScreen(removed, visible)
    ensures forall id :: id in removed && id in visible ==> id in RestorePass(removed, visible).restored
    decreases |removed|
  {
    if removed != [] {
      if removed[0] in visible {
        if |removed| > 1 {
          assert removed[1] !in visible;
          RestorePassWithoutNeighbours(removed[2..], visible);
          assert removed[1..][1..] == removed[2..];
          assert removed == [removed[0]] + [removed[1]] + removed[2..];
        }
      } else {
        RestorePassWithoutNeighbours(removed[1..], visible);
        assert removed == [removed[0]] + removed[1..];
      }
    }
  }

  /** Two intersecting polygons side by side: the first is restored, the second skipped,
      so it stays detached although it intersects the viewport. */
  lemma AdjacentIntersectingSecondSkipped(p: PolygonId, q: PolygonId, visible: set<PolygonId>)
    requires p in visible && q in visible
    ensures RestorePass([p, q], visible) == RestoreOutcome([q], [p])
  {
    assert [p, q][2..] == [];
  }

  /** A polygon listed twice and restored by its first entry stays listed (though attached). */
  lemma DuplicateStaysListed(p: PolygonId, visible: set<PolygonId>)
    requires p in visible
    ensures p in RestorePass([p, p], visible).kept && p in RestorePass([p, p], visible).restored
  {
    assert [p, p][2..] == [];
  }
}
