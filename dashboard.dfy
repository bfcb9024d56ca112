/** The `LocationsDashboard` component: the state it owns and the handlers
    that update it. React's setters become field assignments; the network
    replies a handler awaits are its parameters. */
module Dashboard {
  import opened Sites
  import opened MineFetch
  import opened LocationSearch
  import opened DashboardStatus

  /** The nationwide view the map starts at and is reset to. */
  const DefaultCenter: LatLng := At(22.5937, 78.9629)
  const DefaultZoom: real := 5.2

  class LocationsDashboard {
    var markers: seq<Marker>
    var isLoading: bool
    var searchQuery: string
    var mapCenter: LatLng
    var mapZoom: real

    /** The initial state: no markers, loading, empty search, default view. */
    constructor ()
      ensures markers == [] && isLoading && searchQuery == ""
      ensures mapCenter == DefaultCenter && mapZoom == DefaultZoom
    {
      markers := [];
      isLoading := true;
      searchQuery := "";
      mapCenter := DefaultCenter;
      mapZoom := DefaultZoom;
    }

    /** `averageAqi`, derived from the current markers: 0 without markers,
        else between the smallest and the largest marker index. */
    function Average(): (r: real)
      reads this
      ensures markers == [] ==> r == 0.0
      ensures markers != [] ==>
        markers[ArgMinAqi(markers)].aqi as real <= r <= markers[ArgMaxAqi(markers)].aqi as real
    {
      if markers != [] then AverageBetweenMinAndMax(markers); AverageAqi(markers)
      else AverageAqi(markers)
    }

    /** The side panel as `EnvironmentalMonitoring` renders it, given the
        derived average and the marker count: the placeholder exactly while
        there are no markers. */
    function Panel(): (v: MonitoringView)
      reads this
      ensures v.Placeholder? <==> markers == []
    {
      EnvironmentalMonitoring(Average(), |markers|)
    }

    /** The reset button is offered only when zoomed in beyond the default:
        never at the default view, always after a search has moved the map. */
    predicate ResetOffered(): (b: bool)
      reads this
      ensures mapZoom == DefaultZoom ==> !b
      ensures mapZoom == MineZoom || mapZoom == GeocodeZoom ==> b
    {
      mapZoom > DefaultZoom
    }

    /** The search box's `onChange`. */
    method SetSearchQuery(text: string)
      modifies this
      ensures searchQuery == text
      ensures markers == old(markers) && isLoading == old(isLoading)
      ensures mapCenter == old(mapCenter) && mapZoom == old(mapZoom)
    {
      searchQuery := text;
    }

    /** The part of `fetchMineAqiData` before its `await`: loading starts. */
    method BeginFetch()
      modifies this
      ensures isLoading
      ensures markers == old(markers) && searchQuery == old(searchQuery)
      ensures mapCenter == old(mapCenter) && mapZoom == old(mapZoom)
    {
      isLoading := true;
    }

    /** The part of `fetchMineAqiData` after every request has settled: the
        kept markers replace the old ones, unless the filtering throws, in
        which case the markers stay as they were; either way loading ends. */
    method SettleFetch(outcomes: seq<Settled>)
      requires |outcomes| == |AllIndianMines|
      modifies this
      ensures !isLoading
      ensures FetchedMarkers(outcomes).Some? ==> markers == FetchedMarkers(outcomes).value
      ensures FetchedMarkers(outcomes).None? ==> markers == old(markers)
      ensures searchQuery == old(searchQuery)
      ensures mapCenter == old(mapCenter) && mapZoom == old(mapZoom)
    {
      FetchedMarkersSpec(outcomes);
      var enriched := FetchedMarkers(outcomes);
      if enriched.Some? {
        markers := enriched.value;
      }
      isLoading := false;
    }

    /** `handleSearch` with the geocoding reply it would receive. An empty
        query changes nothing; a matching mine sets its position and zoom 12;
        otherwise a geocoding reply sets its coordinates and zoom 9, and a
        failure only raises the alert. The query text and markers are kept. */
    method HandleSearch(reply: GeocodeReply) returns (alerted: bool)
      modifies this
      ensures var r := Resolve(old(searchQuery), AllIndianMines, reply);
        alerted == r.NotFound? &&
        if r.FlyTo? then mapCenter == r.center && mapZoom == r.zoom
        else mapCenter == old(mapCenter) && mapZoom == old(mapZoom)
      ensures searchQuery == old(searchQuery)
      ensures markers == old(markers) && isLoading == old(isLoading)
    {
      alerted := false;
      if searchQuery == "" {
        return;
      }
      var found := FindMine(AllIndianMines, searchQuery, 0);
      if found.Some? {
        var mine := AllIndianMines[found.value];
        mapCenter := At(mine.lat, mine.lon);
        mapZoom := MineZoom;
      } else {
        match reply
        case Failed =>
          alerted := true;
        case Reply(lat, lon) =>
          mapCenter := LatLng(lat, lon);
          mapZoom := GeocodeZoom;
      }
    }

    /** `handleResetView`: the default view and an empty query, whatever the
        state before; the reset button is then no longer offered. */
    method HandleResetView()
      modifies this
      ensures mapCenter == DefaultCenter && mapZoom == DefaultZoom && searchQuery == ""
      ensures !ResetOffered()
      ensures markers == old(markers) && isLoading == old(isLoading)
    {
      mapCenter := DefaultCenter;
      mapZoom := DefaultZoom;
      searchQuery := "";
    }
  }

  /** The loading placeholder shows exactly while there are no markers: a
      real average of 0 over some markers still gets the status panel. */
  lemma PlaceholderIffNoMarkers(markers: seq<Marker>)
    ensures EnvironmentalMonitoring(AverageAqi(markers), |markers|).Placeholder? <==> markers == []
  {
  }

  /** A search that lands on a mine or a geocoded place zooms in beyond the
      default view, so the reset button appears. */
  lemma SearchZoomsBeyondDefault(query: string, mines: seq<Mine>, reply: GeocodeReply)
    requires Resolve(query, mines, reply).FlyTo?
    ensures Resolve(query, mines, reply).zoom > DefaultZoom
  {
  }
}
