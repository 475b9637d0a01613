/**
 * Centroid and bounding box of a drawn outline (utils/api.ts). Both source functions
 * are loops over the `[lat, lng]` pairs; each is modelled as a method proved against a
 * specification function, and the properties of those functions are proved as lemmas.
 */
module Geometry {

  import opened Types
  import opened Seqs

  function Lats(points: seq<LatLng>): seq<real>
  {
    seq(|points|, i requires 0 <= i < |points| => points[i].0)
  }

  function Lngs(points: seq<LatLng>): seq<real>
  {
    seq(|points|, i requires 0 <= i < |points| => points[i].1)
  }

  /** The coordinate-wise mean of the pairs, each coordinate averaged on its own; `(0, 0)` for none. */
  function Centroid(points: seq<LatLng>): LatLng
  {
    if |points| == 0 then (0.0, 0.0)
    else (Sum(Lats(points)) / |points| as real, Sum(Lngs(points)) / |points| as real)
  }

  /** `calculatePolygonCentroid`: one pass summing latitudes and longitudes, then a division by the count. */
  method CalculatePolygonCentroid(points: seq<LatLng>) returns (centroid: LatLng)
    ensures centroid == Centroid(points)
  {
    if |points| == 0 {
      return (0.0, 0.0);
    }
    var latSum, lngSum := 0.0, 0.0;
    for i := 0 to |points|
      invariant latSum == Sum(Lats(points[..i]))
      invariant lngSum == Sum(Lngs(points[..i]))
    {
      assert Lats(points[..i + 1])[..i] == Lats(points[..i]);
      assert Lngs(points[..i + 1])[..i] == Lngs(points[..i]);
      latSum := latSum + points[i].0;
      lngSum := lngSum + points[i].1;
    }
    assert points[..|points|] == points;
    centroid := (latSum / |points| as real, lngSum / |points| as real);
  }

  function Min(a: real, b: real): real { if a <= b then a else b }

  function Max(a: real, b: real): real { if a >= b then a else b }

  /** The degenerate box around a single pair. */
  function PointBox(p: LatLng): BoundingBox
  {
    BoundingBox(p.0, p.0, p.1, p.1)
  }

  /** The box widened, where needed, to take in one more pair. */
  function Include(box: BoundingBox, p: LatLng): BoundingBox
  {
    BoundingBox(Max(box.north, p.0), Min(box.south, p.0), Max(box.east, p.1), Min(box.west, p.1))
  }

  /** The running min/max over the pairs in order; all zero for none. */
  function BoundingBoxOf(points: seq<LatLng>): BoundingBox
  {
    if |points| == 0 then BoundingBox(0.0, 0.0, 0.0, 0.0)
    else if |points| == 1 then PointBox(points[0])
    else Include(BoundingBoxOf(points[..|points| - 1]), points[|points| - 1])
  }

  /** `calculateBoundingBox`: start from the first pair, then take min and max over every pair. */
  method CalculateBoundingBox(points: seq<LatLng>) returns (box: BoundingBox)
    ensures box == BoundingBoxOf(points)
  {
    if |points| == 0 {
      return BoundingBox(0.0, 0.0, 0.0, 0.0);
    }
    var minLat, maxLat := points[0].0, points[0].0;
    var minLng, maxLng := points[0].1, points[0].1;
    for i := 0 to |points|
      invariant BoundingBox(maxLat, minLat, maxLng, minLng) == BoundingBoxOf(points[..if i == 0 then 1 else i])
    {
      assert i > 0 ==> points[..i + 1][..i] == points[..i];
      minLat := Min(minLat, points[i].0);
      maxLat := Max(maxLat, points[i].0);
      minLng := Min(minLng, points[i].1);
      maxLng := Max(maxLng, points[i].1);
    }
    assert points[..|points|] == points;
    box := BoundingBox(maxLat, minLat, maxLng, minLng);
  }

  /** The pair lies inside the box, edges included. */
  predicate Encloses(box: BoundingBox, p: LatLng)
  {
    box.south <= p.0 <= box.north && box.west <= p.1 <= box.east
  }

  /** Every pair lies inside the bounding box of a non-empty outline. */
  lemma {:induction false} BoundingBoxEncloses(points: seq<LatLng>)
    requires |points| > 0
    ensures forall i :: 0 <= i < |points| ==> Encloses(BoundingBoxOf(points), points[i])
  {
    if |points| > 1 {
      var front := points[..|points| - 1];
      BoundingBoxEncloses(front);
      assert forall i :: 0 <= i < |points| - 1 ==> points[i] == front[i];
    }
  }

  /** Each edge of the bounding box of a non-empty outline is attained by some pair. */
  lemma {:induction false} BoundingBoxTight(points: seq<LatLng>)
    requires |points| > 0
    ensures var box := BoundingBoxOf(points);
      && (exists i :: 0 <= i < |points| && points[i].0 == box.north)
      && (exists i :: 0 <= i < |points| && points[i].0 == box.south)
      && (exists i :: 0 <= i < |points| && points[i].1 == box.east)
      && (exists i :: 0 <= i < |points| && points[i].1 == box.west)
  {
    var last := |points| - 1;
    assert points[last] in points;
    if last > 0 {
      var front := points[..last];
      BoundingBoxTight(front);
      assert forall i :: 0 <= i < |points| - 1 ==> points[i] == front[i];
    }
  }

  /** The centroid of a non-empty outline lies inside its bounding box. */
  lemma CentroidInBoundingBox(points: seq<LatLng>)
    requires |points| > 0
    ensures Encloses(BoundingBoxOf(points), Centroid(points))
  {
    var box := BoundingBoxOf(points);
    BoundingBoxEncloses(points);
    MeanBounds(Lats(points), box.south, box.north);
    MeanBounds(Lngs(points), box.west, box.east);
  }
}
