/**
 * The map marker the dashboard keeps (initMap, updateMap): one marker that
 * follows each valid fix, and a popup opened on the first fix only.
 */
module MapMarker {
  import opened Values
  import opened Payload

  /**
   * The map fields: the marker's position (if a marker exists), the view's
   * centre and zoom, `mapInitialized`, and how many times a popup was opened.
   */
  datatype MapState = MapState(marker: Option<LatLng>, center: LatLng, zoom: int, initialized: bool, popupOpens: nat)

  /** Arequipa, the reference point initMap centres on and puts the first marker at. */
  const InitialCenter := LatLng(-16.3989, -71.537)
  const InitialZoom := 14
  /** The zoom setView uses when a marker is created for a first fix. */
  const FirstFixZoom := 15

  /** What holds of the map fields after initMap: a marker exists, and a popup was opened exactly when the map is initialised. */
  predicate MapInv(m: MapState) {
    m.marker.Some? && m.popupOpens == (if m.initialized then 1 else 0)
  }

  /** initMap: the view on Arequipa at zoom 14, with a marker there already. */
  function InitMap(): (m: MapState)
    ensures MapInv(m) && !m.initialized && m.marker == Some(InitialCenter)
    ensures m.center == InitialCenter && m.zoom == InitialZoom && m.popupOpens == 0
  {
    MapState(Some(InitialCenter), InitialCenter, InitialZoom, false, 0)
  }

  /**
   * updateMap. Without a valid fix nothing changes. Otherwise the marker ends
   * at the fix: an existing marker is moved and the view panned to it (zoom
   * kept), else a marker is created and the view set to it at zoom 15; the
   * popup is opened only if the map was not yet initialised, which it then is.
   */
  function UpdateMap(m: MapState, gps: Option<Gps>): (r: MapState)
    ensures Fix(gps).None? ==> r == m
    ensures Fix(gps).Some? ==> r.marker == Fix(gps) && r.center == Fix(gps).value && r.initialized
    ensures Fix(gps).Some? && m.marker.Some? ==> r.zoom == m.zoom
    ensures Fix(gps).Some? ==> r.popupOpens == if m.initialized then m.popupOpens else m.popupOpens + 1
    ensures MapInv(m) ==> MapInv(r)
  {
    match Fix(gps)
    case None => m
    case Some(pos) =>
      var placed := if m.marker.Some? then m.(marker := Some(pos), center := pos)
                    else m.(marker := Some(pos), center := pos, zoom := FirstFixZoom);
      if !m.initialized then placed.(popupOpens := m.popupOpens + 1, initialized := true) else placed
  }

  /** A second updateMap with the same `gps` changes nothing (onmessage calls it twice per message). */
  lemma UpdateMapIdempotent(m: MapState, gps: Option<Gps>)
    ensures UpdateMap(UpdateMap(m, gps), gps) == UpdateMap(m, gps)
  {
  }

  function UpdateMapAll(m: MapState, fixes: seq<Option<Gps>>): MapState
    decreases |fixes|
  {
    if fixes == [] then m else UpdateMapAll(UpdateMap(m, fixes[0]), fixes[1..])
  }

  /**
   * From initMap on, whatever fixes arrive, the popup is opened at most once
   * and the marker is never recreated.
   */
  lemma {:induction false} PopupOpensAtMostOnce(m: MapState, fixes: seq<Option<Gps>>)
    requires MapInv(m)
    ensures MapInv(UpdateMapAll(m, fixes)) && UpdateMapAll(m, fixes).popupOpens <= 1
    ensures UpdateMapAll(m, fixes).marker.Some?
    ensures (exists i :: 0 <= i < |fixes| && Fix(fixes[i]).Some?) ==> UpdateMapAll(m, fixes).initialized
    decreases |fixes|
  {
    if fixes != [] {
      PopupOpensAtMostOnce(UpdateMap(m, fixes[0]), fixes[1..]);
      if exists i :: 0 <= i < |fixes| && Fix(fixes[i]).Some? {
        var i :| 0 <= i < |fixes| && Fix(fixes[i]).Some?;
        if i > 0 {
          assert Fix(fixes[1..][i - 1]).Some?;
        } else {
          InitializedStays(UpdateMap(m, fixes[0]), fixes[1..]);
        }
      }
    }
  }

  /** Once initialised, the map stays initialised. */
  lemma {:induction false} InitializedStays(m: MapState, fixes: seq<Option<Gps>>)
    requires m.initialized
    ensures UpdateMapAll(m, fixes).initialized
    decreases |fixes|
  {
    if fixes != [] {
      InitializedStays(UpdateMap(m, fixes[0]), fixes[1..]);
    }
  }

  /** The last valid fix among `fixes`, if any. */
  function LastFix(fixes: seq<Option<Gps>>): Option<LatLng>
    decreases |fixes|
  {
    if fixes == [] then None
    else if Fix(fixes[|fixes| - 1]).Some? then Fix(fixes[|fixes| - 1])
    else LastFix(fixes[..|fixes| - 1])
  }

  /** After a run of updates, the marker sits at the last valid fix, or where it was when there was none. */
  lemma {:induction false} MarkerFollowsLastFix(m: MapState, fixes: seq<Option<Gps>>)
    ensures UpdateMapAll(m, fixes).marker == if LastFix(fixes).Some? then LastFix(fixes) else m.marker
    decreases |fixes|
  {
    if fixes != [] {
      var rest := fixes[1..];
      MarkerFollowsLastFix(UpdateMap(m, fixes[0]), rest);
      LastFixOfCons(fixes[0], rest);
      assert fixes == [fixes[0]] + rest;
    }
  }

  lemma {:induction false} LastFixOfCons(first: Option<Gps>, rest: seq<Option<Gps>>)
    ensures LastFix([first] + rest) == if LastFix(rest).Some? then LastFix(rest) else Fix(first)
    decreases |rest|
  {
    var all := [first] + rest;
    if rest == [] {
      assert all == [first];
    } else {
      assert all[|all| - 1] == rest[|rest| - 1];
      assert all[..|all| - 1] == [first] + rest[..|rest| - 1];
      LastFixOfCons(first, rest[..|rest| - 1]);
    }
  }
}
