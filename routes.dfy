/**
 * The route derivation of `updateRoutes`: which markers take part, in which
 * order, what is drawn and what total distance is shown, in straight mode,
 * in road mode and in road mode when the routing service gives nothing.
 */
module Routes {
  import opened Options
  import opened Sequences
  import opened Geo
  import opened Markers
  import opened Osrm

  /** `routeType`: `'straight'` or `'route'`. */
  datatype RouteType = Straight | Road

  /**
   * What `updateRoutes` leaves behind: the legs drawn between consecutive
   * points (polylines in straight mode, distance tooltips in road mode), the
   * one polyline through the whole route in road mode, and the distance
   * shown (`null` when hidden).
   */
  datatype Route = Route(segments: seq<Segment>, path: Option<seq<Point>>, distance: Option<real>)

  /** `titiks.filter(t => selectedTitiks.includes(t.id))`. */
  function SelectedPoints(ts: seq<Titik>, sel: seq<int>): (r: seq<Titik>)
    ensures forall t :: t in r <==> t in ts && t.id in sel
    ensures |r| <= |ts|
  {
    Filter(ts, (t: Titik) => t.id in sel)
  }

  /** The `[lat, lng]` positions of some markers, in order. */
  function Positions(ts: seq<Titik>): (r: seq<Point>)
    ensures |r| == |ts|
    ensures forall i :: 0 <= i < |ts| ==> r[i] == Position(ts[i])
  {
    seq(|ts|, i requires 0 <= i < |ts| => Position(ts[i]))
  }

  /**
   * The route for the current state. `ready` stands for the map widget and
   * the Leaflet library being loaded; `response` for what the routing service
   * answered, consulted in road mode only.
   */
  function DeriveRoute(ready: bool, ts: seq<Titik>, sel: seq<int>, mode: RouteType,
                       dist: DistanceFn, response: Option<OsrmResponse>): (r: Route)
    ensures r.distance.None? <==> !ready || |sel| < 2
    ensures r.distance.None? ==> r.segments == [] && r.path.None?
    ensures r.path.None? <==> r.distance.None? || mode == Straight
  {
    if !ready || |sel| < 2 then Route([], None, None)
    else
      var points := SelectedPoints(ts, sel);
      var ps := Positions(points);
      if mode == Straight then Route(Segments(dist, ps), None, Some(StraightTotal(dist, ps)))
      else match FetchRoute(points, response)
        case Some(data) => Route(Segments(dist, ps), Some(data.coordinates), Some(data.distance))
        case None => Route([], Some(ps), Some(StraightTotal(dist, ps)))
  }

  /**
   * Straight mode: one leg per consecutive pair of selected points, in
   * storage order, and the total shown is the sum of the legs.
   */
  lemma StraightRoute(ready: bool, ts: seq<Titik>, sel: seq<int>, dist: DistanceFn, response: Option<OsrmResponse>)
    requires ready && |sel| >= 2
    ensures var r := DeriveRoute(ready, ts, sel, Straight, dist, response);
            var ps := Positions(SelectedPoints(ts, sel));
            && |r.segments| == (if |ps| < 2 then 0 else |ps| - 1)
            && (forall i :: 0 <= i < |r.segments| ==> r.segments[i].from == ps[i] && r.segments[i].to == ps[i + 1])
            && r.distance == Some(SumKm(r.segments))
  {
  }

  /**
   * Road mode with an answer from the service: the road geometry is drawn,
   * its length is shown, and one distance label per consecutive pair is
   * placed exactly as the straight legs would be.
   */
  lemma RoadRoute(ready: bool, ts: seq<Titik>, sel: seq<int>, dist: DistanceFn, response: Option<OsrmResponse>)
    requires ready && |sel| >= 2
    requires FetchRoute(SelectedPoints(ts, sel), response).Some?
    ensures var r := DeriveRoute(ready, ts, sel, Road, dist, response);
            var data := FetchRoute(SelectedPoints(ts, sel), response).value;
            && r.path == Some(data.coordinates)
            && r.distance == Some(data.distance)
            && r.segments == DeriveRoute(ready, ts, sel, Straight, dist, response).segments
  {
  }

  /**
   * Road mode without an answer: the polyline runs straight through the
   * selected points and the distance shown equals the straight-mode total.
   */
  lemma RoadFallback(ready: bool, ts: seq<Titik>, sel: seq<int>, dist: DistanceFn, response: Option<OsrmResponse>)
    requires ready && |sel| >= 2
    requires FetchRoute(SelectedPoints(ts, sel), response).None?
    ensures var r := DeriveRoute(ready, ts, sel, Road, dist, response);
            && r.segments == []
            && r.path == Some(Positions(SelectedPoints(ts, sel)))
            && r.distance == DeriveRoute(ready, ts, sel, Straight, dist, response).distance
            && r.distance == Some(SumKm(Segments(dist, Positions(SelectedPoints(ts, sel)))))
  {
  }

  /**
   * The route follows the markers' storage order, not the order of the
   * clicks: two duplicate-free selections with the same ids give the same
   * route.
   */
  lemma RouteIgnoresSelectionOrder(ready: bool, ts: seq<Titik>, s1: seq<int>, s2: seq<int>, mode: RouteType,
                                   dist: DistanceFn, response: Option<OsrmResponse>)
    requires NoDup(s1) && NoDup(s2)
    requires forall x :: x in s1 <==> x in s2
    ensures DeriveRoute(ready, ts, s1, mode, dist, response) == DeriveRoute(ready, ts, s2, mode, dist, response)
  {
    assert forall x: int :: x in s1 <==> x in s2;
    SameElementsSameLength(s1, s2);
    FilterCongruent(ts, (t: Titik) => t.id in s1, (t: Titik) => t.id in s2);
  }

  /** The markers a filter keeps still have pairwise distinct ids. */
  lemma {:induction false} FilterUniqueIds(ts: seq<Titik>, p: Titik -> bool)
    requires UniqueIds(ts)
    ensures UniqueIds(Filter(ts, p))
  {
    if ts != [] {
      var rest := ts[1..];
      assert Ids(rest) == Ids(ts)[1..];
      FilterUniqueIds(rest, p);
      var fr := Filter(rest, p);
      if p(ts[0]) {
        var r := [ts[0]] + fr;
        forall i, j | 0 <= i < j < |r| ensures Ids(r)[i] != Ids(r)[j] {
          if i == 0 {
            assert r[j] in rest;
            var k :| 0 <= k < |rest| && rest[k] == r[j];
            assert Ids(ts)[0] != Ids(ts)[k + 1];
          } else {
            assert Ids(fr)[i - 1] != Ids(fr)[j - 1];
          }
        }
      }
    }
  }

  /**
   * When the ids are unique, the selection has no duplicates and names only
   * existing markers, every selected id contributes exactly one point, so
   * straight mode draws one leg fewer than there are selected ids.
   */
  lemma SelectedPointsCount(ts: seq<Titik>, sel: seq<int>)
    requires UniqueIds(ts) && NoDup(sel)
    requires forall x :: x in sel ==> x in Ids(ts)
    ensures |SelectedPoints(ts, sel)| == |sel|
  {
    var r := SelectedPoints(ts, sel);
    FilterUniqueIds(ts, (t: Titik) => t.id in sel);
    var ids := Ids(r);
    forall x | x in ids ensures x in sel {
      var i :| 0 <= i < |ids| && ids[i] == x;
      assert r[i] in r;
    }
    forall x | x in sel ensures x in ids {
      var k :| 0 <= k < |ts| && Ids(ts)[k] == x;
      assert ts[k] in r;
      var j :| 0 <= j < |r| && r[j] == ts[k];
      assert ids[j] == x;
    }
    SameElementsSameLength(ids, sel);
  }

  /**
   * In a consistent state (unique ids, a duplicate-free selection naming only
   * existing markers) straight mode draws one leg fewer than there are
   * selected ids.
   */
  lemma StraightLegCount(ready: bool, ts: seq<Titik>, sel: seq<int>, dist: DistanceFn, response: Option<OsrmResponse>)
    requires ready && |sel| >= 2
    requires UniqueIds(ts) && NoDup(sel)
    requires forall x :: x in sel ==> x in Ids(ts)
    ensures |DeriveRoute(ready, ts, sel, Straight, dist, response).segments| == |sel| - 1
  {
    SelectedPointsCount(ts, sel);
  }

  /**
   * The straight-mode loop of `updateRoutes`: a line per consecutive pair,
   * each leg's distance added to `totalDist`.
   */
  method StraightLegs(dist: DistanceFn, ps: seq<Point>) returns (segs: seq<Segment>, total: real)
    ensures segs == Segments(dist, ps)
    ensures total == StraightTotal(dist, ps)
  {
    segs, total := [], 0.0;
    var i := 0;
    while i < |ps| - 1
      invariant i == 0 || i < |ps|
      invariant segs == Segments(dist, ps[..Bound(i + 1, |ps|)])
      invariant total == StraightTotal(dist, ps[..Bound(i + 1, |ps|)])
    {
      var d := PointDistance(dist, ps[i], ps[i + 1]);
      segs := segs + [Segment(ps[i], ps[i + 1], d)];
      total := total + d;
      assert ps[..i + 2][..i + 1] == ps[..i + 1];
      i := i + 1;
    }
    assert ps[..Bound(i + 1, |ps|)] == ps;
  }

  /** The road-mode loop: a distance label per consecutive pair. */
  method LegLabels(dist: DistanceFn, ps: seq<Point>) returns (segs: seq<Segment>)
    ensures segs == Segments(dist, ps)
  {
    segs := [];
    var i := 0;
    while i < |ps| - 1
      invariant i == 0 || i < |ps|
      invariant segs == Segments(dist, ps[..Bound(i + 1, |ps|)])
    {
      segs := segs + [Segment(ps[i], ps[i + 1], PointDistance(dist, ps[i], ps[i + 1]))];
      assert ps[..i + 2][..i + 1] == ps[..i + 1];
      i := i + 1;
    }
    assert ps[..Bound(i + 1, |ps|)] == ps;
  }

  /** The fallback loop: only the distances are summed. */
  method FallbackTotal(dist: DistanceFn, ps: seq<Point>) returns (total: real)
    ensures total == StraightTotal(dist, ps)
  {
    total := 0.0;
    var i := 0;
    while i < |ps| - 1
      invariant i == 0 || i < |ps|
      invariant total == StraightTotal(dist, ps[..Bound(i + 1, |ps|)])
    {
      total := total + PointDistance(dist, ps[i], ps[i + 1]);
      assert ps[..i + 2][..i + 1] == ps[..i + 1];
      i := i + 1;
    }
    assert ps[..Bound(i + 1, |ps|)] == ps;
  }

  /** The length of the prefix a loop over consecutive pairs has covered. */
  function Bound(a: nat, b: nat): (r: nat)
    ensures r <= a && r <= b && (r == a || r == b)
  {
    if a <= b then a else b
  }
}
