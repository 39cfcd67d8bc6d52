/**
 * Coordinates and straight-line distances. A JavaScript number is modelled
 * with its special values, because `parseFloat` may yield NaN and the edit
 * form rejects exactly that. The haversine formula of `calculateDistance`
 * is not modelled: every distance is taken from a caller-supplied function
 * of (lat1, lng1, lat2, lng2), so the results below hold for any such
 * function.
 */
module Geo {

  /** A JavaScript (IEEE double) number, seen through what the component tests of it. */
  datatype Number = Finite(value: real) | PositiveInfinity | NegativeInfinity | NaN

  /** A `[lat, lng]` pair, as Leaflet takes it. */
  type Point = (Number, Number)

  /** `calculateDistance(lat1, lng1, lat2, lng2)`, in kilometres. */
  type DistanceFn = (Number, Number, Number, Number) -> real

  /** One drawn leg between two consecutive selected points, with its length. */
  datatype Segment = Segment(from: Point, to: Point, km: real)

  function PointDistance(dist: DistanceFn, p: Point, q: Point): real {
    dist(p.0, p.1, q.0, q.1)
  }

  /**
   * The legs of the loop `for (i = 0; i < n - 1; i++)` over the points:
   * one per consecutive pair, in order, none when fewer than two points.
   */
  function Segments(dist: DistanceFn, ps: seq<Point>): (r: seq<Segment>)
    ensures |r| == if |ps| < 2 then 0 else |ps| - 1
    ensures forall i :: 0 <= i < |r| ==>
      r[i].from == ps[i] && r[i].to == ps[i + 1] && r[i].km == PointDistance(dist, ps[i], ps[i + 1])
    decreases |ps|
  {
    if |ps| < 2 then []
    else
      var n := |ps|;
      Segments(dist, ps[..n - 1]) + [Segment(ps[n - 2], ps[n - 1], PointDistance(dist, ps[n - 2], ps[n - 1]))]
  }

  /** The sum of the lengths of some legs. */
  function SumKm(segs: seq<Segment>): real {
    if segs == [] then 0.0 else segs[0].km + SumKm(segs[1..])
  }

  /**
   * `totalDist` after the loop, accumulated leg by leg: it equals the sum of
   * the lengths of the legs drawn.
   */
  function StraightTotal(dist: DistanceFn, ps: seq<Point>): (r: real)
    ensures r == SumKm(Segments(dist, ps))
    decreases |ps|
  {
    if |ps| < 2 then 0.0
    else
      var n := |ps|;
      var last := Segment(ps[n - 2], ps[n - 1], PointDistance(dist, ps[n - 2], ps[n - 1]));
      SumKmAppend(Segments(dist, ps[..n - 1]), last);
      StraightTotal(dist, ps[..n - 1]) + last.km
  }

  lemma {:induction false} SumKmAppend(segs: seq<Segment>, s: Segment)
    ensures SumKm(segs + [s]) == SumKm(segs) + s.km
  {
    if segs != [] {
      assert (segs + [s])[1..] == segs[1..] + [s];
      SumKmAppend(segs[1..], s);
    }
  }

  /** One more point adds exactly the leg to it. */
  lemma StraightTotalExtend(dist: DistanceFn, ps: seq<Point>, p: Point)
    requires |ps| >= 1
    ensures StraightTotal(dist, ps + [p]) == StraightTotal(dist, ps) + PointDistance(dist, ps[|ps| - 1], p)
  {
  }

  /**
   * When every leg has non-negative length (as the haversine distance has),
   * so has the total.
   */
  lemma {:induction false} StraightTotalNonNegative(dist: DistanceFn, ps: seq<Point>)
    requires forall i :: 0 <= i < |ps| - 1 ==> PointDistance(dist, ps[i], ps[i + 1]) >= 0.0
    ensures StraightTotal(dist, ps) >= 0.0
    decreases |ps|
  {
    if |ps| >= 2 {
      var q := ps[..|ps| - 1];
      forall i | 0 <= i < |q| - 1 ensures PointDistance(dist, q[i], q[i + 1]) >= 0.0 {
        assert q[i] == ps[i] && q[i + 1] == ps[i + 1];
      }
      StraightTotalNonNegative(dist, q);
      assert PointDistance(dist, ps[|ps| - 2], ps[|ps| - 1]) >= 0.0;
    }
  }
}
