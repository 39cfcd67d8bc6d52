/**
 * The state of the `Maps` component and the handlers that change it. The
 * React setters replace whole values; here each handler assigns the fields
 * it changes. Leaflet layers, tooltips, popups and the loading flags are not
 * modelled; the drawn route is kept as the `Route` of the Routes module.
 */
module Maps {
  import opened Options
  import opened Sequences
  import opened Geo
  import opened Markers
  import opened Selection
  import opened Osrm
  import opened Routes

  /** The add form's fields as typed (`inputLat`, `inputLng`, ...). */
  datatype FormInput = FormInput(lat: string, lng: string, name: string, kapasitas: string, iconType: IconType)

  class MapsState {
    /** `map` and `L` are both loaded. */
    var mapReady: bool
    var titiks: seq<Titik>
    var selectedTitiks: seq<int>
    var routeType: RouteType
    var editingTitik: Option<EditingTitik>
    /** The lines and distance labels in `linesRef`, and the route's polyline. */
    var segments: seq<Segment>
    var path: Option<seq<Point>>
    var distance: Option<real>
    /**
     * The `titiks.length` seen by the map's click handler, fixed when the
     * handler was registered together with the map.
     */
    var clickCount: nat

    /**
     * Marker ids are unique and no id is selected twice. No marker exists
     * before the map does, so the click handler always saw an empty list.
     */
    ghost predicate Valid()
      reads this
    {
      && UniqueIds(titiks) && NoDup(selectedTitiks)
      && (!mapReady ==> titiks == [])
      && (mapReady ==> clickCount == 0)
    }

    /** Every selected id names a marker that exists. */
    ghost predicate NoDangling()
      reads this
    {
      forall x :: x in selectedTitiks ==> x in Ids(titiks)
    }

    /** The component's initial state (the `useState` defaults). */
    constructor ()
      ensures Valid() && NoDangling()
      ensures !mapReady && titiks == [] && selectedTitiks == [] && routeType == Straight
      ensures editingTitik == None && segments == [] && path == None && distance == None
    {
      clickCount := 0;
      mapReady := false;
      titiks := [];
      selectedTitiks := [];
      routeType := Straight;
      editingTitik := None;
      segments := [];
      path := None;
      distance := None;
    }

    /**
     * `setMap(mapInstance)` once Leaflet and the map are set up. The map is
     * created only while there is none, and its click handler captures the
     * list length of that moment.
     */
    method MapLoaded()
      requires Valid()
      modifies this`mapReady, this`clickCount
      ensures Valid() && mapReady
      ensures clickCount == if old(mapReady) then old(clickCount) else |titiks|
    {
      if !mapReady {
        clickCount := |titiks|;
        mapReady := true;
      }
    }

    /** `setRouteType`, from the two mode buttons. */
    method SetRouteType(mode: RouteType)
      modifies this`routeType
      ensures routeType == mode
    {
      routeType := mode;
    }

    /** `addTitikToMap`: appends the marker, unless the map is not loaded yet. */
    method AddTitikToMap(t: Titik)
      requires Valid() && t.id !in Ids(titiks)
      modifies this`titiks
      ensures Valid()
      ensures titiks == if mapReady then old(titiks) + [t] else old(titiks)
      ensures old(NoDangling()) ==> NoDangling()
    {
      if !mapReady {
        return;
      }
      titiks := titiks + [t];
      assert Ids(titiks) == Ids(old(titiks)) + [t.id];
    }

    /**
     * A click on the map at (lat, lng), as the handler is written: a dot
     * named after the length the handler captured, so always "Titik 1".
     */
    method AddTitikByClick(id: int, lat: real, lng: real)
      requires Valid() && id !in Ids(titiks)
      modifies this`titiks
      ensures Valid()
      ensures titiks == if mapReady then ClickAsWritten(old(titiks), clickCount, id, lat, lng) else old(titiks)
      ensures mapReady ==> titiks[|titiks| - 1].name == DefaultName(0)
      ensures old(NoDangling()) ==> NoDangling()
    {
      AddTitikToMap(ClickedTitik(id, lat, lng, clickCount));
    }

    /** The same click as evidently intended: a dot named after the current count. */
    method AddTitikByClickIntended(id: int, lat: real, lng: real)
      requires Valid() && id !in Ids(titiks)
      modifies this`titiks
      ensures Valid()
      ensures titiks == if mapReady then ClickIntended(old(titiks), id, lat, lng) else old(titiks)
      ensures old(NoDangling()) ==> NoDangling()
    {
      AddTitikToMap(ClickedTitik(id, lat, lng, |titiks|));
    }

    /**
     * `handleAddTitikByInput`: nothing happens while either coordinate field
     * is empty; otherwise the parsed marker is added, named by the form or by
     * the default. `parse` stands for `parseFloat`, which is not checked here
     * for NaN.
     */
    method HandleAddTitikByInput(id: int, form: FormInput, parse: string -> Number)
      requires Valid() && id !in Ids(titiks)
      modifies this`titiks
      ensures Valid()
      ensures form.lat == "" || form.lng == "" || !mapReady ==> titiks == old(titiks)
      ensures form.lat != "" && form.lng != "" && mapReady ==>
        titiks == old(titiks) + [Titik(id, parse(form.lat), parse(form.lng),
                                       if form.name == "" then DefaultName(|old(titiks)|) else form.name,
                                       form.kapasitas, form.iconType)]
      ensures old(NoDangling()) ==> NoDangling()
    {
      if form.lat == "" || form.lng == "" {
        return;
      }
      var name := if form.name == "" then DefaultName(|titiks|) else form.name;
      AddTitikToMap(Titik(id, parse(form.lat), parse(form.lng), name, form.kapasitas, form.iconType));
    }

    /** `updateTitikLocation`, on the end of a drag. */
    method UpdateTitikLocation(id: int, lat: real, lng: real)
      requires Valid()
      modifies this`titiks
      ensures Valid()
      ensures titiks == Relocate(old(titiks), id, Finite(lat), Finite(lng))
      ensures old(NoDangling()) ==> NoDangling()
    {
      titiks := Relocate(titiks, id, Finite(lat), Finite(lng));
    }

    /** `toggleSelectTitik`, on a click on a marker or on its list entry. */
    method ToggleSelectTitik(id: int)
      requires Valid()
      modifies this`selectedTitiks
      ensures Valid()
      ensures selectedTitiks == Toggle(old(selectedTitiks), id)
      ensures old(NoDangling()) && (id in old(selectedTitiks) || id in Ids(titiks)) ==> NoDangling()
    {
      selectedTitiks := Toggle(selectedTitiks, id);
    }

    /** `deleteTitik`: the marker goes, and so does its id from the selection. */
    method DeleteTitik(id: int)
      requires Valid()
      modifies this`titiks, this`selectedTitiks
      ensures Valid()
      ensures titiks == RemoveId(old(titiks), id)
      ensures selectedTitiks == Without(old(selectedTitiks), id)
      ensures id !in Ids(titiks) && id !in selectedTitiks
      ensures old(NoDangling()) ==> NoDangling()
    {
      titiks := RemoveId(titiks, id);
      selectedTitiks := Without(selectedTitiks, id);
    }

    /** `clearAllTitiks`: no markers, no selection, no lines, no distance. */
    method ClearAllTitiks()
      requires Valid()
      modifies this`titiks, this`selectedTitiks, this`segments, this`path, this`distance
      ensures Valid() && NoDangling()
      ensures titiks == [] && selectedTitiks == []
      ensures segments == [] && path == None && distance == None
    {
      segments := [];
      path := None;
      titiks := [];
      selectedTitiks := [];
      distance := None;
    }

    /** `startEditTitik`: the form opens with the marker's fields; `show` is `toString`. */
    method StartEditTitik(t: Titik, show: Number -> string)
      modifies this`editingTitik
      ensures editingTitik == Some(EditingTitik(t.id, t.name, show(t.lat), show(t.lng), t.kapasitas, t.iconType))
    {
      editingTitik := Some(EditingTitik(t.id, t.name, show(t.lat), show(t.lng), t.kapasitas, t.iconType));
    }

    /** The form's `onChange` handlers: every field but the id may be retyped. */
    method ChangeEditForm(name: string, lat: string, lng: string, kapasitas: string, iconType: IconType)
      requires editingTitik.Some?
      modifies this`editingTitik
      ensures editingTitik == Some(EditingTitik(old(editingTitik).value.id, name, lat, lng, kapasitas, iconType))
    {
      editingTitik := Some(EditingTitik(editingTitik.value.id, name, lat, lng, kapasitas, iconType));
    }

    /** `cancelEditTitik`. */
    method CancelEditTitik()
      modifies this`editingTitik
      ensures editingTitik == None
    {
      editingTitik := None;
    }

    /**
     * `saveEditTitik`: without an open form, or when either coordinate parses
     * to NaN, nothing changes (the form stays open); otherwise the edited
     * marker takes the form's fields and the form closes.
     */
    method SaveEditTitik(parse: string -> Number)
      requires Valid()
      modifies this`titiks, this`editingTitik
      ensures Valid()
      ensures old(editingTitik).None? || parse(old(editingTitik).value.lat).NaN? || parse(old(editingTitik).value.lng).NaN?
        ==> titiks == old(titiks) && editingTitik == old(editingTitik)
      ensures old(editingTitik).Some? && !parse(old(editingTitik).value.lat).NaN? && !parse(old(editingTitik).value.lng).NaN?
        ==> titiks == ApplyEdit(old(titiks), old(editingTitik).value, parse(old(editingTitik).value.lat), parse(old(editingTitik).value.lng))
            && editingTitik == None
      ensures old(NoDangling()) ==> NoDangling()
    {
      if editingTitik.None? {
        return;
      }
      var e := editingTitik.value;
      var lat := parse(e.lat);
      var lng := parse(e.lng);
      if lat.NaN? || lng.NaN? {
        return;
      }
      titiks := ApplyEdit(titiks, e, lat, lng);
      editingTitik := None;
    }

    /**
     * `updateRoutes`: rebuilds the drawn route and the shown distance from
     * the markers, the selection and the mode. `dist` is `calculateDistance`;
     * `response` is what the routing service answers if it is asked.
     */
    method UpdateRoutes(dist: DistanceFn, response: Option<OsrmResponse>)
      modifies this`segments, this`path, this`distance
      ensures Route(segments, path, distance) == DeriveRoute(mapReady, titiks, selectedTitiks, routeType, dist, response)
      ensures Valid() && NoDangling() && mapReady && routeType == Straight && |selectedTitiks| >= 2
        ==> |segments| == |selectedTitiks| - 1
    {
      if Valid() && NoDangling() && mapReady && routeType == Straight && |selectedTitiks| >= 2 {
        StraightLegCount(mapReady, titiks, selectedTitiks, dist, response);
      }
      if !mapReady || |selectedTitiks| < 2 {
        segments := [];
        path := None;
        distance := None;
        return;
      }
      segments := [];
      path := None;
      var points := SelectedPoints(titiks, selectedTitiks);
      var ps := Positions(points);
      if routeType == Straight {
        var legs, total := StraightLegs(dist, ps);
        segments := legs;
        distance := Some(total);
      } else {
        var routeData := FetchRoute(points, response);
        if routeData.Some? {
          segments := LegLabels(dist, ps);
          path := Some(routeData.value.coordinates);
          distance := Some(routeData.value.distance);
        } else {
          path := Some(ps);
          var total := FallbackTotal(dist, ps);
          distance := Some(total);
        }
      }
    }
  }
}
