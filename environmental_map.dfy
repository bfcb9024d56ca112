/** The `EnvironmentalMap` component: the map's own `getAqiInfo`, the marker
    selection changed by clicks, the zone overlay `ZoneLayer` keeps on the
    map, and the camera `MapController` moves. Leaflet itself is not
    modelled: the overlays on the map and the camera's target are fields. */
module EnvironmentalMap {
  import opened Wrappers
  import opened AqiTier
  import opened Sites
  import opened MineFetch
  import DashboardStatus

  /** The value handed to `getAqiInfo`: the string `'-'`, `undefined`, or any
      other value together with what `parseInt` makes of it (`None` for NaN). */
  datatype RawAqi = Dash | Undefined | Other(parsed: Option<int>)

  /** What `getAqiInfo` returns: the tier (`status` is `Label(tier)`) and the
      colour of the marker and zone. */
  datatype MapAqiInfo = MapAqiInfo(tier: Tier, color: string)

  /** The colour the map uses for each tier. */
  function ColorOf(t: Tier): string {
    match t
    case Good => "#22C55E"
    case Moderate => "#FBBF24"
    case UnhealthyForSensitive => "#F97316"
    case Unhealthy => "#EF4444"
    case VeryUnhealthy => "#A855F7"
    case Hazardous => "#881337"
    case NotAvailable => "#9CA3AF"
  }

  /** Classifies a raw index: `'-'` and `undefined` are N/A (grey); a parsed
      integer goes to the band whose inclusive upper bound it does not exceed;
      any other value parses to NaN, fails every comparison and is Hazardous. */
  function GetAqiInfo(aqi: RawAqi): (r: MapAqiInfo)
    ensures r.tier == NotAvailable <==> aqi.Dash? || aqi.Undefined?
    ensures aqi.Other? && aqi.parsed.Some? ==> InBand(r.tier, aqi.parsed.value)
    ensures aqi == Other(None) ==> r.tier == Hazardous
    ensures r.color == ColorOf(r.tier)
  {
    if aqi.Dash? || aqi.Undefined? then MapAqiInfo(NotAvailable, "#9CA3AF")
    else
      match aqi.parsed
      case None => MapAqiInfo(Hazardous, "#881337")
      case Some(val) =>
        if val <= 50 then MapAqiInfo(Good, "#22C55E")
        else if val <= 100 then MapAqiInfo(Moderate, "#FBBF24")
        else if val <= 150 then MapAqiInfo(UnhealthyForSensitive, "#F97316")
        else if val <= 200 then MapAqiInfo(Unhealthy, "#EF4444")
        else if val <= 300 then MapAqiInfo(VeryUnhealthy, "#A855F7")
        else MapAqiInfo(Hazardous, "#881337")
  }

  /** On whole numbers the map and the dashboard name the same tier, although
      each component carries its own copy of the thresholds. */
  lemma TiersAgreeWithDashboard(n: int)
    ensures GetAqiInfo(Other(Some(n))).tier == DashboardStatus.GetAqiInfo(DashboardStatus.Num(n as real)).tier
  {
    assert DashboardStatus.Round(n as real) == n;
    BandUnique(GetAqiInfo(Other(Some(n))).tier, DashboardStatus.GetAqiInfo(DashboardStatus.Num(n as real)).tier, n);
  }

  /** A higher parsed index never gets a less severe tier. */
  lemma GetAqiInfoMonotone(m: int, n: int)
    requires m <= n
    ensures GetAqiInfo(Other(Some(m))).tier != NotAvailable
    ensures Severity(GetAqiInfo(Other(Some(m))).tier) <= Severity(GetAqiInfo(Other(Some(n))).tier)
  {
    BandsOrdered(GetAqiInfo(Other(Some(m))).tier, m, GetAqiInfo(Other(Some(n))).tier, n);
  }

  /** A marker's index is an integer, which `parseInt` gives back unchanged. */
  function MarkerAqi(m: Marker): RawAqi {
    Other(Some(m.aqi))
  }

  /** The map's static configuration: the box it is locked to, its least zoom
      and the radius in metres of a station's zone. */
  const SouthWest: (real, real) := (5.9, 68.1)
  const NorthEast: (real, real) := (35.5, 97.4)
  const MinZoom: int := 4
  const ZoneRadius: int := 25000

  predicate InsideBounds(lat: real, lon: real) {
    SouthWest.0 <= lat <= NorthEast.0 && SouthWest.1 <= lon <= NorthEast.1
  }

  /** Every monitored mine lies inside the box the map is locked to. */
  lemma AllMinesInsideBounds()
    ensures forall i :: 0 <= i < |AllIndianMines| ==>
      InsideBounds(AllIndianMines[i].lat, AllIndianMines[i].lon)
  {
  }

  /** A circle overlay added to the map. */
  datatype Zone = Zone(center: LatLng, radius: int, color: string)

  /** The zone `ZoneLayer` draws for a selected station. */
  function ZoneFor(station: Marker): (z: Zone)
    ensures z.center == At(station.lat, station.lon) && z.radius == ZoneRadius
    ensures z.color == ColorOf(GetAqiInfo(MarkerAqi(station)).tier)
  {
    Zone(At(station.lat, station.lon), ZoneRadius, GetAqiInfo(MarkerAqi(station)).color)
  }

  /** The overlays that should be on the map for a selection: one, or none. */
  function ZonesFor(selected: Option<Marker>): seq<Zone> {
    if selected.Some? then [ZoneFor(selected.value)] else []
  }

  /** `map.removeLayer(zone)`: the overlays without `zone`. */
  function Without(zones: seq<Zone>, zone: Zone): (r: seq<Zone>)
    ensures forall z :: z in r <==> z in zones && z != zone
    ensures |r| <= |zones|
  {
    if zones == [] then []
    else if zones[0] == zone then Without(zones[1..], zone)
    else [zones[0]] + Without(zones[1..], zone)
  }

  /** One rendered `<Marker>`: its React key, position, colour and the index shown on it. */
  datatype MarkerIcon = MarkerIcon(key: string, position: LatLng, color: string, text: int)

  /** `markers.map(...)`: one icon per marker, in order, keyed by uid. */
  function MarkerIcons(markers: seq<Marker>): (r: seq<MarkerIcon>)
    ensures |r| == |markers|
    ensures forall i :: 0 <= i < |r| ==>
      r[i].key == markers[i].uid && r[i].position == At(markers[i].lat, markers[i].lon) &&
      r[i].text == markers[i].aqi && r[i].color == ColorOf(GetAqiInfo(MarkerAqi(markers[i])).tier)
  {
    seq(|markers|, i requires 0 <= i < |markers| =>
      MarkerIcon(markers[i].uid, At(markers[i].lat, markers[i].lon),
                 GetAqiInfo(MarkerAqi(markers[i])).color, markers[i].aqi))
  }

  /** The markers of a fetch have distinct uids, so their React keys are
      distinct too. */
  lemma FetchedMarkerKeysDistinct(outcomes: seq<Settled>)
    requires |outcomes| == |AllIndianMines| && FetchedMarkers(outcomes).Some?
    ensures var icons := MarkerIcons(FetchedMarkers(outcomes).value);
      forall a, b :: 0 <= a < b < |icons| ==> icons[a].key != icons[b].key
  {
    FetchedMarkersSpec(outcomes);
  }

  /** Where a click lands: on the i-th marker, or on the map's background. */
  datatype ClickTarget = OnMarker(index: nat) | OnBackground

  class MapView {
    // the props the dashboard passes
    var markers: seq<Marker>
    var isLoading: bool
    var center: LatLng
    var zoom: real
    // the component's state
    var selectedStation: Option<Marker>
    // the Leaflet map: overlays added by ZoneLayer and not yet removed, and the
    // target of the camera's last flyTo (None while no map is mounted)
    var zones: seq<Zone>
    var camera: Option<(LatLng, real)>

    /** While loading, no map is mounted: no overlays, no camera. Otherwise the
        camera targets the latest center and zoom, and the overlays are exactly
        the zone of the selected station, if any. */
    predicate Valid()
      reads this
      ensures Valid() ==> |zones| <= 1 && (camera.Some? <==> !isLoading)
      ensures Valid() && !isLoading ==> camera == Some((center, zoom))
    {
      if isLoading then zones == [] && camera.None?
      else camera == Some((center, zoom)) && zones == ZonesFor(selectedStation)
    }

    /** The number of overlays on the map: one while a station is selected on
        a mounted map, none otherwise. */
    function LiveZones(): (n: nat)
      reads this
      requires Valid()
      ensures n == if selectedStation.Some? && !isLoading then 1 else 0
    {
      |zones|
    }

    /** What is rendered: nothing while loading, else one icon per marker. */
    function Rendered(): (r: seq<MarkerIcon>)
      reads this
      ensures |r| == if isLoading then 0 else |markers|
    {
      if isLoading then [] else MarkerIcons(markers)
    }

    /** The first render: nothing selected; if the map mounts, the camera
        targets the given view. */
    constructor (markers: seq<Marker>, isLoading: bool, center: LatLng, zoom: real)
      ensures Valid()
      ensures this.markers == markers && this.isLoading == isLoading
      ensures this.center == center && this.zoom == zoom
      ensures selectedStation.None? && zones == []
    {
      this.markers := markers;
      this.isLoading := isLoading;
      this.center := center;
      this.zoom := zoom;
      selectedStation := None;
      zones := [];
      camera := if isLoading then None else Some((center, zoom));
    }

    /** A re-render with new props. The selection survives. When the map
        unmounts, ZoneLayer's cleanup removes the zone; when it mounts, the
        camera targets the view and the zone is drawn again; on a mounted map,
        a new center or zoom makes the camera fly there. */
    method Render(markers': seq<Marker>, isLoading': bool, center': LatLng, zoom': real)
      requires Valid()
      modifies this
      ensures Valid()
      ensures markers == markers' && isLoading == isLoading' && center == center' && zoom == zoom'
      ensures selectedStation == old(selectedStation)
      ensures camera == if isLoading' then None else Some((center', zoom'))
    {
      var wasLoading := isLoading;
      var viewChanged := (center', zoom') != (center, zoom);
      markers, isLoading, center, zoom := markers', isLoading', center', zoom';
      if !wasLoading && isLoading' {
        if selectedStation.Some? {
          zones := Without(zones, ZoneFor(selectedStation.value));
        }
        camera := None;
      } else if wasLoading && !isLoading' {
        camera := Some((center', zoom'));
        if selectedStation.Some? {
          zones := zones + [ZoneFor(selectedStation.value)];
        }
      } else if !isLoading' && viewChanged {
        camera := Some((center', zoom'));
      }
    }

    /** A click on the mounted map. A marker's handler selects it and stops
        the event, so the background handler does not also run; a click on the
        background deselects. ZoneLayer then swaps the old zone for the new. */
    method Click(target: ClickTarget)
      requires Valid() && !isLoading
      requires target.OnMarker? ==> target.index < |markers|
      modifies this
      ensures Valid()
      ensures markers == old(markers) && isLoading == old(isLoading)
      ensures selectedStation == if target.OnMarker? then Some(markers[target.index]) else None
      ensures zones == ZonesFor(selectedStation)
      ensures center == old(center) && zoom == old(zoom) && camera == old(camera)
    {
      var previous := selectedStation;
      var propagationStopped := false;
      if target.OnMarker? {
        propagationStopped := true;
        selectedStation := Some(markers[target.index]);
      }
      if !propagationStopped {
        selectedStation := None;
      }
      if selectedStation != previous {
        if previous.Some? {
          zones := Without(zones, ZoneFor(previous.value));
        }
        if selectedStation.Some? {
          zones := zones + [ZoneFor(selectedStation.value)];
        }
      }
    }

    /** Teardown of the component: ZoneLayer's cleanup removes its zone and the
        map goes away, so no overlay is left behind. */
    method Unmount()
      requires Valid()
      modifies this
      ensures zones == [] && camera.None?
      ensures selectedStation == old(selectedStation)
      ensures markers == old(markers) && isLoading == old(isLoading)
      ensures center == old(center) && zoom == old(zoom)
    {
      if selectedStation.Some? && !isLoading {
        zones := Without(zones, ZoneFor(selectedStation.value));
      }
      camera := None;
    }
  }

  /** Two searches in a row: whatever the first target, the camera settles on
      the second. */
  method SequentialViews(view: MapView, first: (LatLng, real), second: (LatLng, real))
    requires view.Valid()
    modifies view
    ensures view.Valid() && view.camera == Some(second)
  {
    view.Render(view.markers, false, first.0, first.1);
    view.Render(view.markers, false, second.0, second.1);
  }
}
