# Marker, selection and route state of the Maps component

This project models the state logic of the `Maps` React component of a small
map application. The user puts markers (`Titik`: id, latitude, longitude,
name, capacity label `kapasitas`, icon type `trafo` or `dot`) on a Leaflet
map. The user selects some of them and sees the distance along them. That
distance is a sum of straight great-circle legs, or the length of a road
route from the OSRM routing service, with a straight-line fallback when the
service gives nothing.

The component's state becomes the class `Maps.MapsState`:
- `titiks`: the ordered list of markers.
- `selectedTitiks`: the ordered list of selected ids.
- `routeType`, `editingTitik`, and a `mapReady` flag that stands for the map
  and Leaflet being loaded.
- The drawn route and the shown distance.

Each handler is a method. It assigns the fields that the React setters
replace and states the new state in terms of the old one. The list
transforms (`filter`, `map`, spread-append) are functions with their own
contracts and lemmas:

- `Sequences`: one generic `Filter` (JavaScript's `Array.prototype.filter`),
  with order preservation (`FilterConcat`), identity and congruence lemmas.
- `Selection`: removing an id and toggling an id.
- `Markers`: the records, default names, moving, editing and deleting.
- `Text`: the decimal numeral in the default name `Titik N`.
- `Geo`: JavaScript numbers (finite, ±Infinity, NaN), `[lat, lng]` points,
  the legs between consecutive points and their sum.
- `Osrm`: what `fetchRoute` makes of the service's answer.
- `Routes`: the route derivation of `updateRoutes`, proved against the
  function `DeriveRoute`, with its loops as methods.

Calls the model cannot see become parameters:
- `calculateDistance` becomes `dist: (lat1, lng1, lat2, lng2) -> real`. Every
  result holds for any distance function.
- `parseFloat` becomes `parse: string -> Number`.
- `Number.prototype.toString` becomes `show: Number -> string`.
- The routing service's decoded answer becomes `Option<OsrmResponse>`. `None`
  means `fetch` or `json()` threw.
- `Date.now()` for ids becomes an id parameter. The add methods require it to
  be fresh.

Behaviour of the component that the model keeps as written:
- The route visits the selected markers in storage order
  (`titiks.filter(...)`), not in the order they were clicked.
  `RouteIgnoresSelectionOrder` proves that reordering a selection changes
  nothing, so toggling a marker out and back in does not reverse the legs.
- Toggling does not check that the id names a marker.
- Deleting an absent id is a silent no-op; no error is reported.
- The fallback result carries no mark of being a fallback. The panel labels
  its distance "Jarak via jalan" ("distance by road", line 751), as it does a
  real road result. The fallback draws no distance labels
  (`segments == []`), its polyline runs straight through the selected points
  instead of along the road geometry, and its distance is the straight-line
  total instead of the service's length.
- Stale route requests are not cancelled: nothing keys a request to the
  state it was made for.
- Editing rejects only NaN coordinates. Infinite and out-of-range values are
  accepted. The add form checks only that the fields are non-empty, so it can
  store NaN.
- Toggling the same id twice restores the selection only when the id was not
  selected, or was the last one. Otherwise the id moves to the end
  (`ToggleTwiceSelected`).
- The map's click handler is registered once, when the map is created
  (line 137 creates the map only while there is none). It keeps the
  `titiks` of that moment, which is always empty, so every marker placed by
  a click is named "Titik 1" (see Findings).
- The add form names a marker after the list length at the time of the add,
  so after a delete two form-added markers can get the same default name.
  `DefaultNameInjective` holds only across different lengths.

## Model

| member | source | states |
|---|---|---|
| Sequences.Filter | app/components/Maps.tsx:358 | the result keeps exactly the elements that pass the test, is no longer than the input, and keeps a duplicate-free input duplicate-free |
| Sequences.FilterConcat | app/components/Maps.tsx:508-509 | filtering a concatenation is the concatenation of the filtered parts, so the kept elements stay in their relative order |
| Sequences.FilterCongruent | app/components/Maps.tsx:358 | two tests that agree on every element select the same subsequence |
| Sequences.SameElementsSameLength | app/components/Maps.tsx:358 | two duplicate-free id lists with the same members have the same length |
| Selection.Without | app/components/Maps.tsx:509 | the id no longer occurs, every other id occurs exactly when it did before, no duplicates are introduced, and an absent id leaves the list unchanged |
| Selection.Toggle | app/components/Maps.tsx:297-305 | the id is selected afterwards exactly when it was not before, membership of every other id is unchanged, an unselected id is appended at the end, and a duplicate-free selection stays duplicate-free |
| Selection.WithoutConcat | app/components/Maps.tsx:509 | removing an id from a concatenation removes it from each part, keeping the order of the rest |
| Selection.WithoutAt | app/components/Maps.tsx:509 | in a duplicate-free selection, removing the id at position k leaves exactly the ids before and after it, in order |
| Selection.ToggleSelectedAt | app/components/Maps.tsx:299-300 | toggling a selected id removes just that id and keeps the others in their order |
| Selection.ToggleTwiceUnselected | app/components/Maps.tsx:297-305 | toggling an unselected id twice gives back the original selection |
| Selection.ToggleTwiceSelected | app/components/Maps.tsx:297-305 | toggling a selected id twice moves it to the end, which equals the original exactly when the id was last |
| Text.Decimal | app/components/Maps.tsx:179 | the numeral is non-empty, made of digits, and starts with '0' only for zero |
| Text.DecimalRoundTrip | app/components/Maps.tsx:179 | reading the numeral's digits back gives the number |
| Text.DecimalInjective | app/components/Maps.tsx:179 | different numbers have different numerals |
| Markers.DefaultName | app/components/Maps.tsx:466 | the default name is "Titik " followed by the numeral of count + 1 |
| Markers.DefaultNameInjective | app/components/Maps.tsx:179 | markers added at different list lengths get different default names |
| Markers.ClickAsWritten | app/components/Maps.tsx:174-184 | the click handler as written appends one marker, keeps the others, and names the new one after the captured length |
| Markers.ClickNamesRepeat | app/components/Maps.tsx:179 | two clicks on a freshly created map give two markers both named "Titik 1" |
| Markers.ClickIntended | app/components/Maps.tsx:179 | the intended click handler appends one marker, keeps the others, and names it after the current length |
| Markers.IntendedClickNamesDistinct | app/components/Maps.tsx:179 | with the intended handler, clicked markers keep the names "Titik 1", "Titik 2", ... by position, so no two share a name |
| Markers.Relocate | app/components/Maps.tsx:260-263 | same length and ids; markers with another id are unchanged; the marker with the id gets the new lat/lng and keeps its name, capacity and icon |
| Markers.RelocateAt | app/components/Maps.tsx:261-263 | with unique ids, moving the marker at position k rewrites only that one record |
| Markers.ApplyEdit | app/components/Maps.tsx:539-543 | same length and ids; markers with another id are unchanged; the edited marker takes the form's name, capacity, icon and the parsed coordinates |
| Markers.RemoveId | app/components/Maps.tsx:508 | the result holds exactly the markers with another id; its id list is the old id list with the id removed, and ids stay unique |
| Markers.IdsOfRemove | app/components/Maps.tsx:508-509 | the markers' filter and the selection's filter agree: the ids of the remaining markers are the old ids without the deleted one |
| Markers.RemoveIdConcat | app/components/Maps.tsx:508 | deleting keeps the other markers in their relative order |
| Markers.RemoveIdAt | app/components/Maps.tsx:508 | with unique ids, deleting the marker at position k leaves exactly the markers before and after it |
| Geo.Segments | app/components/Maps.tsx:363-390 | n points give n-1 legs (none for fewer than two), leg i running from point i to point i+1 with their distance |
| Geo.StraightTotal | app/components/Maps.tsx:362-389 | the `totalDist` accumulated leg by leg equals the sum of the lengths of the legs drawn |
| Geo.StraightTotalExtend | app/components/Maps.tsx:389 | one more point adds exactly the distance from the last point to it |
| Geo.StraightTotalNonNegative | app/components/Maps.tsx:445-450 | when every leg has non-negative length, so has the total |
| Osrm.SwapPairs | app/components/Maps.tsx:331 | same length, and each pair has its two components exchanged |
| Osrm.SwapPairsInvolution | app/components/Maps.tsx:331 | swapping twice gives back the service's geometry |
| Osrm.FetchRoute | app/components/Maps.tsx:319-339 | no route for fewer than two points; a route exactly when the service answered "Ok" with a route; its points are the returned [lng, lat] pairs as [lat, lng], its distance the metres divided by 1000 |
| Routes.Positions | app/components/Maps.tsx:434 | the positions of the markers as `[lat, lng]` pairs, one per marker, in order |
| Routes.SelectedPoints | app/components/Maps.tsx:358 | a marker takes part exactly when it exists and its id is selected |
| Routes.DeriveRoute | app/components/Maps.tsx:343-453 | the distance is hidden exactly when the map is not ready or fewer than two ids are selected, and then nothing is drawn; a route polyline exists exactly in road mode with a shown distance |
| Routes.StraightRoute | app/components/Maps.tsx:360-391 | straight mode draws one leg per consecutive pair of selected points in storage order, and shows the sum of the legs |
| Routes.RoadRoute | app/components/Maps.tsx:398-431 | with a service answer, the road geometry and its length are shown, and the distance labels sit on the same legs as straight mode's lines |
| Routes.RoadFallback | app/components/Maps.tsx:432-451 | without a service answer, a polyline through the selected points is drawn and the distance equals the straight-mode total |
| Routes.RouteIgnoresSelectionOrder | app/components/Maps.tsx:358 | two duplicate-free selections with the same ids give the same route: click order does not matter |
| Routes.FilterUniqueIds | app/components/Maps.tsx:358 | the selected markers still have pairwise distinct ids |
| Routes.SelectedPointsCount | app/components/Maps.tsx:358 | in a consistent state every selected id contributes exactly one point |
| Routes.StraightLegCount | app/components/Maps.tsx:358-391 | in a consistent state, straight mode draws one leg fewer than there are selected ids |
| Routes.StraightLegs | app/components/Maps.tsx:360-391 | the straight-mode loop produces exactly the legs and total of the specification |
| Routes.LegLabels | app/components/Maps.tsx:408-428 | the road-mode loop labels exactly the consecutive legs |
| Routes.FallbackTotal | app/components/Maps.tsx:445-450 | the fallback loop accumulates exactly the straight total |
| Maps.MapsState.constructor | app/components/Maps.tsx:31-46 | the initial state: no map, no markers, no selection, straight mode, no form, no route, no distance |
| Maps.MapsState.MapLoaded | app/components/Maps.tsx:136-186 | the map becomes ready once; the click handler's captured length is the list length at that moment, and it stays fixed afterwards |
| Maps.MapsState.SetRouteType | app/components/Maps.tsx:720-731 | the mode becomes the chosen one |
| Maps.MapsState.AddTitikToMap | app/components/Maps.tsx:190-257 | the marker is appended at the end when the map is ready, otherwise nothing changes; ids stay unique |
| Maps.MapsState.AddTitikByClick | app/components/Maps.tsx:174-184 | a click on a ready map appends a dot at the clicked position with no capacity, named after the captured length, which is always "Titik 1" |
| Maps.MapsState.AddTitikByClickIntended | app/components/Maps.tsx:179 | the evidently intended click appends the dot named after the current number of markers |
| Maps.MapsState.HandleAddTitikByInput | app/components/Maps.tsx:459-477 | nothing is added while a coordinate field is empty; otherwise the parsed marker is appended, named by the form or by default |
| Maps.MapsState.UpdateTitikLocation | app/components/Maps.tsx:260-263 | the markers become their relocation; ids stay unique and no selected id dangles |
| Maps.MapsState.ToggleSelectTitik | app/components/Maps.tsx:297-305 | the selection becomes its toggle and stays duplicate-free |
| Maps.MapsState.DeleteTitik | app/components/Maps.tsx:502-510 | the marker and its id in the selection are removed; no dangling selected id is created |
| Maps.MapsState.ClearAllTitiks | app/components/Maps.tsx:488-500 | no markers, no selection, no drawn route and no distance |
| Maps.MapsState.StartEditTitik | app/components/Maps.tsx:512-521 | the form opens with the marker's fields, the coordinates as text |
| Maps.MapsState.ChangeEditForm | app/components/Maps.tsx:786-836 | the form's fields change, its id does not |
| Maps.MapsState.CancelEditTitik | app/components/Maps.tsx:523-525 | the form closes |
| Maps.MapsState.SaveEditTitik | app/components/Maps.tsx:527-598 | without a form or with a NaN coordinate nothing changes; otherwise the edit is applied to the marker with the form's id and the form closes |
| Maps.MapsState.UpdateRoutes | app/components/Maps.tsx:341-457 | the drawn route and shown distance become the route derived from the markers, the selection and the mode |

## Findings

| source | as written | input that shows it | evidently intended | confidence | as-written member | corrected member |
|---|---|---|---|---|---|---|
| app/components/Maps.tsx:137-184 | the click handler is registered once, when the map is created, and names every marker after the `titiks.length` of that moment, which is 0 | three clicks on an empty map name the markers "Titik 1", "Titik 1", "Titik 1" | name each clicked marker after the current count, "Titik 1", "Titik 2", "Titik 3", as the add form does (line 466) | medium; not executed | Markers.ClickNamesRepeat | Markers.IntendedClickNamesDistinct |

## Left out

- The haversine body of `calculateDistance` (trigonometry on floating point). Distances come from an arbitrary function, and no property of it is assumed except where a lemma names it.
- Floating-point arithmetic: sums and the metres-to-kilometres division are exact on reals. `toFixed(2)` and `toFixed(6)` formatting is not modelled; the shown distance is the number itself.
- The HTTP request to the routing service, the URL built from `lng,lat` waypoints, and the JSON decoding. A body that makes the code throw (missing geometry) is folded into the `None` outcome.
- Leaflet: creating and removing markers, polylines, circle markers, icons, tooltips and popups, and `markersRef`. A distance label is recorded by its leg, not by the midpoint where it is placed.
- Geolocation, the user-location marker, `returnToUserLocation`, and loading Leaflet and its CSS (browser I/O).
- Reactive re-execution and concurrency. `useEffect` reruns `updateRoutes` after every change; here the caller calls `UpdateRoutes`. The asynchronous interleaving of route requests and the `isLoadingRoute` flag are also left out.
- The `alert` shown for invalid coordinates, the reset of the add form's fields after an add, the sidebar toggle and the JSX layout (UI).
- `Date.now()`: ids are parameters that the add methods require to be fresh.
- `app/page.tsx`, which only renders the component.
