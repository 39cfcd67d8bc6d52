/**
 * The marker records (`Titik`) and the list transforms the component applies
 * to `titiks`: naming a new marker, moving one, editing one and deleting one.
 */
module Markers {
  import opened Sequences
  import opened Selection
  import opened Text
  import opened Geo

  /** `'trafo' | 'dot'`: a substation icon or a plain dot. */
  datatype IconType = Trafo | Dot

  /** A marker: its id (a timestamp), position, name, capacity label and icon. */
  datatype Titik = Titik(id: int, lat: Number, lng: Number, name: string, kapasitas: string, iconType: IconType)

  /** The edit form's contents; the coordinates are still the text typed in. */
  datatype EditingTitik = EditingTitik(id: int, name: string, lat: string, lng: string, kapasitas: string, iconType: IconType)

  /** The ids of the markers, in storage order. */
  function Ids(ts: seq<Titik>): (r: seq<int>)
    ensures |r| == |ts|
    ensures forall i :: 0 <= i < |ts| ==> r[i] == ts[i].id
  {
    if ts == [] then [] else [ts[0].id] + Ids(ts[1..])
  }

  /** No two markers share an id. */
  predicate UniqueIds(ts: seq<Titik>) {
    NoDup(Ids(ts))
  }

  /** The position of a marker as a `[lat, lng]` pair. */
  function Position(t: Titik): Point {
    (t.lat, t.lng)
  }

  /** `Titik ${count + 1}`: the name a new marker gets when none is typed. */
  function DefaultName(count: nat): (r: string)
    ensures |r| > 6 && r[..6] == "Titik "
    ensures (forall i :: 6 <= i < |r| ==> IsDigit(r[i])) && DigitsValue(r[6..]) == count + 1
  {
    DecimalRoundTrip(count + 1);
    "Titik " + Decimal(count + 1)
  }

  /** Markers added at different list lengths get different default names. */
  lemma DefaultNameInjective(m: nat, n: nat)
    requires m != n
    ensures DefaultName(m) != DefaultName(n)
  {
  }

  /** The marker a click on the map at (lat, lng) creates, named after `count`. */
  function ClickedTitik(id: int, lat: real, lng: real, count: nat): Titik {
    Titik(id, Finite(lat), Finite(lng), DefaultName(count), "", Dot)
  }

  /**
   * The click handler as written: it is registered once, when the map is
   * created, and names every marker after the `titiks.length` it captured
   * then, which is always 0.
   */
  function ClickAsWritten(ts: seq<Titik>, captured: nat, id: int, lat: real, lng: real): (r: seq<Titik>)
    ensures |r| == |ts| + 1 && r[..|ts|] == ts
    ensures r[|ts|].name == DefaultName(captured)
  {
    ts + [ClickedTitik(id, lat, lng, captured)]
  }

  /** Two clicks on a freshly created map give two markers both named "Titik 1". */
  lemma ClickNamesRepeat(id1: int, id2: int, lat1: real, lng1: real, lat2: real, lng2: real)
    ensures var ts := ClickAsWritten(ClickAsWritten([], 0, id1, lat1, lng1), 0, id2, lat2, lng2);
            |ts| == 2 && ts[0].name == ts[1].name == "Titik 1"
  {
    assert Decimal(1) == "1";
  }

  /**
   * The click handler as evidently intended, like the add form at the time
   * of the call: the marker is named after the current number of markers.
   */
  function ClickIntended(ts: seq<Titik>, id: int, lat: real, lng: real): (r: seq<Titik>)
    ensures |r| == |ts| + 1 && r[..|ts|] == ts
    ensures r[|ts|].name == DefaultName(|ts|)
  {
    ts + [ClickedTitik(id, lat, lng, |ts|)]
  }

  /** Every marker carries the default name of its position in the list. */
  ghost predicate NamedByPosition(ts: seq<Titik>) {
    forall i :: 0 <= i < |ts| ==> ts[i].name == DefaultName(i)
  }

  /**
   * With the intended handler, markers placed by clicks keep the names
   * "Titik 1", "Titik 2", ... in order, so no two of them share a name.
   */
  lemma IntendedClickNamesDistinct(ts: seq<Titik>, id: int, lat: real, lng: real)
    requires NamedByPosition(ts)
    ensures NamedByPosition(ClickIntended(ts, id, lat, lng))
    ensures var r := ClickIntended(ts, id, lat, lng);
            forall i, j :: 0 <= i < j < |r| ==> r[i].name != r[j].name
  {
    var r := ClickIntended(ts, id, lat, lng);
    assert forall i :: 0 <= i < |ts| ==> r[i] == ts[i];
    forall i, j | 0 <= i < j < |r| ensures r[i].name != r[j].name {
      DefaultNameInjective(i, j);
    }
  }

  /**
   * `updateTitikLocation`: the marker with the id gets the new position;
   * nothing else about it, and nothing about any other marker, changes.
   */
  function Relocate(ts: seq<Titik>, id: int, lat: Number, lng: Number): (r: seq<Titik>)
    ensures |r| == |ts| && Ids(r) == Ids(ts)
    ensures forall i :: 0 <= i < |ts| && ts[i].id != id ==> r[i] == ts[i]
    ensures forall i :: 0 <= i < |ts| && ts[i].id == id ==>
      r[i].lat == lat && r[i].lng == lng &&
      r[i].name == ts[i].name && r[i].kapasitas == ts[i].kapasitas && r[i].iconType == ts[i].iconType
  {
    seq(|ts|, i requires 0 <= i < |ts| => if ts[i].id == id then ts[i].(lat := lat, lng := lng) else ts[i])
  }

  /**
   * The update `saveEditTitik` applies once both coordinates parsed: the
   * marker with the edited id takes every field of the form; others stay.
   */
  function ApplyEdit(ts: seq<Titik>, e: EditingTitik, lat: Number, lng: Number): (r: seq<Titik>)
    ensures |r| == |ts| && Ids(r) == Ids(ts)
    ensures forall i :: 0 <= i < |ts| && ts[i].id != e.id ==> r[i] == ts[i]
    ensures forall i :: 0 <= i < |ts| && ts[i].id == e.id ==>
      r[i] == Titik(e.id, lat, lng, e.name, e.kapasitas, e.iconType)
  {
    seq(|ts|, i requires 0 <= i < |ts| =>
      if ts[i].id == e.id
      then ts[i].(name := e.name, lat := lat, lng := lng, kapasitas := e.kapasitas, iconType := e.iconType)
      else ts[i])
  }

  /** `prev.filter(t => t.id !== id)`: the markers without the deleted one. */
  function RemoveId(ts: seq<Titik>, id: int): (r: seq<Titik>)
    ensures forall t :: t in r <==> t in ts && t.id != id
    ensures Ids(r) == Without(Ids(ts), id)
    ensures UniqueIds(ts) ==> UniqueIds(r)
  {
    IdsOfRemove(ts, id);
    Filter(ts, (t: Titik) => t.id != id)
  }

  lemma {:induction false} IdsOfRemove(ts: seq<Titik>, id: int)
    ensures Ids(Filter(ts, (t: Titik) => t.id != id)) == Without(Ids(ts), id)
  {
    if ts != [] {
      IdsOfRemove(ts[1..], id);
      assert Ids(ts) == [ts[0].id] + Ids(ts[1..]);
      WithoutConcat([ts[0].id], Ids(ts[1..]), id);
      var rest := Filter(ts[1..], (t: Titik) => t.id != id);
      if ts[0].id != id {
        assert Ids([ts[0]] + rest) == [ts[0].id] + Ids(rest);
      }
    }
  }

  /** Deletion keeps the other markers in their order. */
  lemma RemoveIdConcat(a: seq<Titik>, b: seq<Titik>, id: int)
    ensures RemoveId(a + b, id) == RemoveId(a, id) + RemoveId(b, id)
  {
    FilterConcat(a, b, (t: Titik) => t.id != id);
  }

  /**
   * With unique ids, deleting the marker at position `k` leaves exactly the
   * markers before and after it.
   */
  lemma RemoveIdAt(ts: seq<Titik>, k: nat)
    requires UniqueIds(ts) && k < |ts|
    ensures RemoveId(ts, ts[k].id) == ts[..k] + ts[k + 1..]
  {
    var id := ts[k].id;
    assert ts == ts[..k] + ([ts[k]] + ts[k + 1..]);
    RemoveIdConcat(ts[..k], [ts[k]] + ts[k + 1..], id);
    RemoveIdConcat([ts[k]], ts[k + 1..], id);
    forall i | 0 <= i < |ts| && i != k ensures ts[i].id != id {
      assert Ids(ts)[i] == ts[i].id && Ids(ts)[k] == id;
      if i < k { assert Ids(ts)[i] != Ids(ts)[k]; } else { assert Ids(ts)[k] != Ids(ts)[i]; }
    }
    FilterKeepsAll(ts[..k], (t: Titik) => t.id != id);
    FilterKeepsAll(ts[k + 1..], (t: Titik) => t.id != id);
  }

  /** With unique ids, moving the marker at `k` rewrites that one record only. */
  lemma RelocateAt(ts: seq<Titik>, k: nat, lat: Number, lng: Number)
    requires UniqueIds(ts) && k < |ts|
    ensures Relocate(ts, ts[k].id, lat, lng) == ts[k := ts[k].(lat := lat, lng := lng)]
  {
  }
}
