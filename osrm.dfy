/**
 * The pure part of `fetchRoute`: what it makes of the routing service's
 * answer. The HTTP request, the URL it builds and the JSON decoding are not
 * modelled; the outcome of `fetch(url)` followed by `response.json()` is a
 * parameter, `None` when either throws.
 */
module Osrm {
  import opened Options
  import opened Geo
  import opened Markers

  /** One entry of `routes`: its geometry as `[lng, lat]` pairs and its length in metres. */
  datatype OsrmRoute = OsrmRoute(coordinates: seq<(Number, Number)>, distance: real)

  /** The decoded body: the status `code` and the `routes` found. */
  datatype OsrmResponse = OsrmResponse(code: string, routes: seq<OsrmRoute>)

  /** What `fetchRoute` returns on success: `[lat, lng]` points and kilometres. */
  datatype RouteData = RouteData(coordinates: seq<Point>, distance: real)

  /** `coords.map(c => [c[1], c[0]])`: each pair with its components swapped. */
  function SwapPairs<T>(cs: seq<(T, T)>): (r: seq<(T, T)>)
    ensures |r| == |cs|
    ensures forall i :: 0 <= i < |cs| ==> r[i].0 == cs[i].1 && r[i].1 == cs[i].0
  {
    if cs == [] then [] else [(cs[0].1, cs[0].0)] + SwapPairs(cs[1..])
  }

  /** Swapping twice gives the geometry back. */
  lemma SwapPairsInvolution<T>(cs: seq<(T, T)>)
    ensures SwapPairs(SwapPairs(cs)) == cs
  {
  }

  /**
   * `fetchRoute(points)`: no request for fewer than two points; otherwise a
   * route exactly when the service answered `"Ok"` with at least one route,
   * whose geometry is turned into `[lat, lng]` and whose length into km.
   */
  function FetchRoute(points: seq<Titik>, response: Option<OsrmResponse>): (r: Option<RouteData>)
    ensures |points| < 2 ==> r == None
    ensures r.Some? <==>
      |points| >= 2 && response.Some? && response.value.code == "Ok" && |response.value.routes| > 0
    ensures r.Some? ==>
      var route := response.value.routes[0];
      |r.value.coordinates| == |route.coordinates| &&
      (forall i :: 0 <= i < |route.coordinates| ==>
        r.value.coordinates[i] == (route.coordinates[i].1, route.coordinates[i].0)) &&
      r.value.distance * 1000.0 == route.distance
  {
    if |points| < 2 then None
    else match response
      case None => None
      case Some(data) =>
        if data.code == "Ok" && |data.routes| > 0
        then Some(RouteData(SwapPairs(data.routes[0].coordinates), data.routes[0].distance / 1000.0))
        else None
  }
}
