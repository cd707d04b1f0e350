/** From map zoom to resolution bucket, and the `distinctUntilChanged` filter
    that decides which zoom events lead to a rebuild. */
module Zoom {
  import opened Geo
  import opened Sequences

  /** `this.zoom && this.zoom >= 2 ? this.zoom - 2 : 0`: an undefined or zero zoom is falsy. */
  function Bucket(zoom: Option<int>): nat
  {
    if zoom.Some? && zoom.value != 0 && zoom.value >= 2 then zoom.value - 2 else 0
  }

  /** The derived bucket is two below the zoom from zoom 2 on, and 0 below that or when the zoom is unknown. */
  lemma BucketRule(zoom: Option<int>)
    ensures zoom.Some? && zoom.value >= 2 ==> Bucket(zoom) + 2 == zoom.value
    ensures zoom.None? || zoom.value < 2 ==> Bucket(zoom) == 0
  {
  }

  /** The bucket never decreases as the zoom grows. */
  lemma BucketMonotone(z1: int, z2: int)
    requires z1 <= z2
    ensures Bucket(Some(z1)) <= Bucket(Some(z2))
  {
  }

  /** There is no upper clamp: every natural number is the bucket of some zoom. */
  lemma BucketUnclamped(b: nat)
    ensures Bucket(Some(b + 2)) == b
  {
  }

  /** `maxZoom` of the map options. */
  const MAX_ZOOM := 7

  /** Below the map's maximum zoom the bucket is at most 5, one above the pre-filled range. */
  lemma BucketUnderMaxZoom(z: int)
    requires z <= MAX_ZOOM
    ensures Bucket(Some(z)) <= MAX_ZOOM - 2
  {
  }

  /** `distinctUntilChanged()` with `last` the value it emitted last, if any. */
  function DistinctFrom<T(==)>(last: Option<T>, events: seq<T>): seq<T>
    decreases |events|
  {
    if events == [] then []
    else if last == Some(events[0]) then DistinctFrom(last, events[1..])
    else [events[0]] + DistinctFrom(Some(events[0]), events[1..])
  }

  /** The zoom values that pass `distinctUntilChanged()`. */
  function DistinctUntilChanged<T(==)>(events: seq<T>): seq<T>
  {
    DistinctFrom(None, events)
  }

  lemma {:induction false} DistinctFromShape<T>(last: Option<T>, events: seq<T>)
    ensures IsSubsequence(DistinctFrom(last, events), events)
    ensures forall i :: 0 <= i < |DistinctFrom(last, events)| - 1 ==>
      DistinctFrom(last, events)[i] != DistinctFrom(last, events)[i + 1]
    ensures DistinctFrom(last, events) != [] ==> last != Some(DistinctFrom(last, events)[0])
    ensures forall x :: x in events ==> x in DistinctFrom(last, events) || last == Some(x)
    decreases |events|
  {
    if events != [] {
      var rest := events[1..];
      if last == Some(events[0]) {
        DistinctFromShape(last, rest);
      } else {
        DistinctFromShape(Some(events[0]), rest);
        var r := DistinctFrom(Some(events[0]), rest);
        assert DistinctFrom(last, events) == [events[0]] + r;
        assert events == [events[0]] + rest;
      }
    }
  }

  /** The emitted zooms are a subsequence of the events with no value repeated
      twice in a row, and every zoom value that occurs among the events is emitted. */
  lemma DistinctUntilChangedShape<T>(events: seq<T>)
    ensures IsSubsequence(DistinctUntilChanged(events), events)
    ensures forall i :: 0 <= i < |DistinctUntilChanged(events)| - 1 ==>
      DistinctUntilChanged(events)[i] != DistinctUntilChanged(events)[i + 1]
    ensures forall x :: x in events <==> x in DistinctUntilChanged(events)
  {
    DistinctFromShape(None, events);
    SubsequenceElements(DistinctUntilChanged(events), events);
  }

  /** Whatever was emitted before, the operator has last emitted the latest event
      (the zoom last reported is the one the rebuild uses). */
  lemma {:induction false} DistinctFromLast<T>(last: Option<T>, events: seq<T>)
    requires events != []
    ensures DistinctFrom(last, events) != [] || last == Some(events[|events| - 1])
    ensures DistinctFrom(last, events) != [] ==>
      DistinctFrom(last, events)[|DistinctFrom(last, events)| - 1] == events[|events| - 1]
    decreases |events|
  {
    if |events| > 1 {
      if last == Some(events[0]) {
        DistinctFromLast(last, events[1..]);
      } else {
        DistinctFromLast(Some(events[0]), events[1..]);
      }
    }
  }

  /** The per-event rule the component runs: an event passes the filter exactly when it differs from the previous one. */
  lemma {:induction false} DistinctStep<T>(events: seq<T>, z: T)
    ensures DistinctUntilChanged(events + [z])
         == DistinctUntilChanged(events) + (if events != [] && events[|events| - 1] == z then [] else [z])
  {
    DistinctFromStep(None, events, z);
  }

  lemma {:induction false} DistinctFromStep<T>(last: Option<T>, events: seq<T>, z: T)
    ensures DistinctFrom(last, events + [z])
         == DistinctFrom(last, events) + (if LastOf(last, events) == Some(z) then [] else [z])
    decreases |events|
  {
    if events == [] {
      assert events + [z] == [z];
    } else {
      assert (events + [z])[1..] == events[1..] + [z];
      if last == Some(events[0]) {
        DistinctFromStep(last, events[1..], z);
        LastOfTail(last, events);
      } else {
        DistinctFromStep(Some(events[0]), events[1..], z);
      }
    }
  }

  /** The value the operator compares the next event with. */
  function LastOf<T>(last: Option<T>, events: seq<T>): Option<T>
  {
    if events == [] then last else Some(events[|events| - 1])
  }

  lemma LastOfTail<T>(last: Option<T>, events: seq<T>)
    requires events != [] && last == Some(events[0])
    ensures LastOf(last, events[1..]) == LastOf(last, events)
  {
  }
}
