# Mine air-quality dashboard — Dafny model

This project models the client-side core of a dashboard that shows live
air-quality readings (AQI) for 22 Indian mining sites on a map. It covers:

- the two AQI classifiers, one in the dashboard and one in the map, and the
  status panel derived from the average reading;
- the post-processing of the per-mine provider replies into map markers, and
  their average;
- the dashboard's view state: search by mine name or through the geocoding
  service, and reset to the nationwide view;
- the map's marker selection, the single zone overlay it draws around the
  selected station, and the camera that follows the requested view.

Network replies are inputs. The settled outcome of each mine's request is a
`Settled` value, one per mine in table order. The geocoding reply is a
`GeocodeReply`. React state setters become assignments to the fields of the
two classes `Dashboard.LocationsDashboard` and `EnvironmentalMap.MapView`.
The Leaflet map is reduced to two fields: the overlays currently added
(`zones`) and the target of the camera's last fly-to (`camera`).

Modules, one per concern:

- `AqiTier`: the tier scale and its bands.
- `Sites`: the mine table.
- `DashboardStatus`: the dashboard's `getAqiInfo` and the status panel.
- `MineFetch`: fetch filtering and `averageAqi`.
- `LocationSearch`: resolution of the search text.
- `Dashboard`: the dashboard component.
- `EnvironmentalMap`: the map component.
- `Wrappers`: `Option`.

A geocoding reply that is valid JSON but lacks `latitude` or `longitude`
is not treated as "not found". The code sets the centre to `undefined`
coordinates at zoom 9, and `GeocodeReply.Reply` with `None` fields models
exactly that state of the dashboard. Likewise, a fetch reply whose body is `null`, or an `ok` reply
without `data`, makes the filtering code throw. The markers then stay as they
were; they are not reset to the kept subset.

## Model

| member | source | states |
|---|---|---|
| `AqiTier.BandUnique` | client/src/component/LocationsDashboard.jsx:67-72 | the tier bands do not overlap, so an integer has at most one tier |
| `AqiTier.BandsOrdered` | client/src/component/LocationsDashboard.jsx:67-72 | the bands follow the order of severity: a larger value never lies in a less severe band |
| `Sites.AllIndianMinesNumbered` | client/src/component/LocationsDashboard.jsx:75-98 | the table has 22 sites, the k-th with uid `mine-k` |
| `Sites.AllIndianMinesUidsDistinct` | client/src/component/LocationsDashboard.jsx:75-98 | the table's uids are pairwise distinct |
| `DashboardStatus.Round` | client/src/component/LocationsDashboard.jsx:66 | `Math.round` gives the integer within one half below and strictly less than one half above (halves round up) |
| `DashboardStatus.GetAqiInfo` | client/src/component/LocationsDashboard.jsx:64-73 | N/A exactly for NaN; any other value, once rounded, lies in the band of the returned tier (inclusive bounds 50/100/150/200/300, else Hazardous) |
| `DashboardStatus.GetAqiInfoRoundsFirst` | client/src/component/LocationsDashboard.jsx:66-68 | 50.4 is Good and 50.5 is Moderate, because rounding comes before the comparison |
| `DashboardStatus.GetAqiInfoMonotone` | client/src/component/LocationsDashboard.jsx:66-72 | a higher reading never gets a less severe tier, and a number is never N/A |
| `DashboardStatus.SystemStatus` | client/src/component/LocationsDashboard.jsx:16-22 | each of the five texts holds exactly on its interval of the unrounded average (inclusive bounds 50/100/150/200, else Critical) |
| `DashboardStatus.VentilationStatus` | client/src/component/LocationsDashboard.jsx:23-27 | Optimal iff at most 100; Increased Load iff in (100, 150]; Maximum Load iff above 150 |
| `DashboardStatus.EmergencyStatus` | client/src/component/LocationsDashboard.jsx:28-31 | Active iff above 150; Standby otherwise |
| `DashboardStatus.EmergencyAgreesWithVentilation` | client/src/component/LocationsDashboard.jsx:16-31 | emergency is Active iff ventilation is at Maximum Load, and then gas levels are High Alert or Critical |
| `DashboardStatus.StatusesAgreeWithTierOnIntegers` | client/src/component/LocationsDashboard.jsx:16-35 | on a whole-number average, emergency is Active iff the AQI badge is Unhealthy or worse, and gas levels are Nominal iff the badge is Good |
| `DashboardStatus.FractionalAverageSplitsBadges` | client/src/component/LocationsDashboard.jsx:32-35 | the helpers compare the unrounded average: at 150.4 the badge reads Unhealthy for Sensitive while emergency is Active |
| `DashboardStatus.EnvironmentalMonitoring` | client/src/component/LocationsDashboard.jsx:6-35 | the placeholder shows iff the station count is 0 and the average is 0; otherwise the badge is a real tier whose band holds the shown rounded average, and all four badges are computed from that same average |
| `MineFetch.MaterialiseFrom` | client/src/component/LocationsDashboard.jsx:120-130 | the filtering throws iff some outcome is a fulfilled `null` body or an `ok` reply without `data`; otherwise it keeps at most one marker per mine |
| `MineFetch.KeptFrom` | client/src/component/LocationsDashboard.jsx:120-130 | reference list of the kept positions: strictly increasing, and it holds exactly the fulfilled, `ok`, integer-AQI outcomes |
| `MineFetch.MaterialiseKeepsUsableInOrder` | client/src/component/LocationsDashboard.jsx:120-130 | if nothing throws, the k-th marker is the k-th kept mine with uid, name, position and reply intact and the parsed AQI added |
| `MineFetch.FetchedMarkersSpec` | client/src/component/LocationsDashboard.jsx:112-130 | a whole fetch over the table either throws or yields at most 22 markers: the kept mines in table order, with distinct uids |
| `MineFetch.FetchedMarkers` | client/src/component/LocationsDashboard.jsx:112-130 | the filtering over the whole table throws iff some outcome is a fulfilled `null` body or an `ok` reply without `data`; otherwise at most 22 markers |
| `MineFetch.SumAqiFromFront` | client/src/component/LocationsDashboard.jsx:173 | the left-to-right `reduce` total equals the first AQI plus the total of the rest |
| `MineFetch.ArgMinAqi` | client/src/component/LocationsDashboard.jsx:171-175 | a position of a smallest marker AQI |
| `MineFetch.ArgMaxAqi` | client/src/component/LocationsDashboard.jsx:171-175 | a position of a largest marker AQI |
| `MineFetch.AverageBetweenMinAndMax` | client/src/component/LocationsDashboard.jsx:171-175 | the average of a non-empty list lies between its smallest and largest AQI |
| `MineFetch.AverageAqi` | client/src/component/LocationsDashboard.jsx:171-175 | 0 for no markers; otherwise the value that, times the count, gives the sum of the AQIs |
| `MineFetch.AverageWithinBounds` | client/src/component/LocationsDashboard.jsx:171-175 | the average of a non-empty marker list lies between any lower and upper bound of its AQIs |
| `MineFetch.TwoOfThreeSitesExample` | client/src/component/LocationsDashboard.jsx:119-130 | with three mines, where two reply 40 and 160 and one fails, the first and third are kept and the average is 100 |
| `LocationSearch.ToLower` | client/src/component/LocationsDashboard.jsx:145-146 | `toLowerCase` keeps the length, turns each ASCII capital into its small letter (`A` to `a` … `Z` to `z`) and keeps every other character |
| `LocationSearch.ToLowerIdempotent` | client/src/component/LocationsDashboard.jsx:145-146 | lower-casing twice equals lower-casing once |
| `LocationSearch.IndexOfFrom` | client/src/component/LocationsDashboard.jsx:146 | the result is the first occurrence at or after `from`, and none means no occurrence there |
| `LocationSearch.Includes` | client/src/component/LocationsDashboard.jsx:146 | `includes` holds iff the needle occurs at some position |
| `LocationSearch.FindMine` | client/src/component/LocationsDashboard.jsx:146 | `find` returns the first mine whose lower-cased name contains the lower-cased query, and none means no mine matches |
| `LocationSearch.Resolve` | client/src/component/LocationsDashboard.jsx:141-163 | the search is skipped iff the query is empty; "not found" happens only on a geocoding failure |
| `LocationSearch.SearchPicksFirstMatchingMine` | client/src/component/LocationsDashboard.jsx:145-150 | the first mine whose name contains the query, ignoring case, sets the centre to its coordinates and the zoom to 12 |
| `LocationSearch.MineMatchIgnoresGeocode` | client/src/component/LocationsDashboard.jsx:148-151 | when some mine matches, the geocoding reply makes no difference |
| `LocationSearch.SearchFallsBackToGeocode` | client/src/component/LocationsDashboard.jsx:151-161 | when no mine matches, a reply sets the centre to its (latitude, longitude) at zoom 9, and a failure gives "not found" |
| `LocationSearch.SearchIgnoresCase` | client/src/component/LocationsDashboard.jsx:145-146 | for the same geocoding reply, a query and its lower-cased form resolve to the same outcome |
| `LocationSearch.FindMineRespectsLowerCase` | client/src/component/LocationsDashboard.jsx:145-146 | the mine found for a query equals the mine found for its lower-cased form |
| `LocationSearch.SearchAnyCaseOfNameFindsAMine` | client/src/component/LocationsDashboard.jsx:145-150 | a query equal to a mine's name up to ASCII case lands at zoom 12 on that mine or an earlier one, whatever the geocoder says |
| `LocationSearch.SearchByFullNameFindsAMine` | client/src/component/LocationsDashboard.jsx:145-150 | typing a mine's full name lands on that mine or an earlier one, at zoom 12 |
| `Dashboard.LocationsDashboard.constructor` | client/src/component/LocationsDashboard.jsx:101-105 | initial state: no markers, loading, empty query, centre (22.5937, 78.9629), zoom 5.2 |
| `Dashboard.LocationsDashboard.Average` | client/src/component/LocationsDashboard.jsx:171-175 | the derived average is 0 without markers, else between the smallest and largest marker AQI |
| `Dashboard.LocationsDashboard.Panel` | client/src/component/LocationsDashboard.jsx:210 | the side panel, fed the derived average and the marker count, is the placeholder exactly while there are no markers |
| `Dashboard.LocationsDashboard.ResetOffered` | client/src/component/LocationsDashboard.jsx:191 | the reset button is hidden at the default zoom 5.2 and shown at zoom 12 or 9 |
| `Dashboard.LocationsDashboard.SetSearchQuery` | client/src/component/LocationsDashboard.jsx:184 | typing replaces the query and changes nothing else |
| `Dashboard.LocationsDashboard.BeginFetch` | client/src/component/LocationsDashboard.jsx:108-109 | loading is on while the requests are outstanding |
| `Dashboard.LocationsDashboard.SettleFetch` | client/src/component/LocationsDashboard.jsx:118-135 | loading is off afterwards in every case; the markers become the filtered list, or stay unchanged when the filtering throws |
| `Dashboard.LocationsDashboard.HandleSearch` | client/src/component/LocationsDashboard.jsx:141-163 | the new centre and zoom are those of `Resolve`, or unchanged when it skips or finds nothing; the alert is raised iff not found; the query and markers are kept |
| `Dashboard.LocationsDashboard.HandleResetView` | client/src/component/LocationsDashboard.jsx:165-169 | centre (22.5937, 78.9629), zoom 5.2 and an empty query, whatever the prior state; the reset button is then hidden |
| `Dashboard.PlaceholderIffNoMarkers` | client/src/component/LocationsDashboard.jsx:7 | the loading placeholder shows iff there are no markers; markers whose average is 0 still get the panel |
| `Dashboard.SearchZoomsBeyondDefault` | client/src/component/LocationsDashboard.jsx:191 | over any mine table, a search that moves the map zooms beyond 5.2, so the reset button is offered |
| `EnvironmentalMap.GetAqiInfo` | client/src/component/EnvironmentalMap.jsx:6-15 | N/A iff the value is `'-'` or `undefined`; a parsed integer lies in the returned tier's band; a NaN parse is Hazardous; the colour is the tier's fixed colour (grey `#9CA3AF` for N/A) |
| `EnvironmentalMap.TiersAgreeWithDashboard` | client/src/component/EnvironmentalMap.jsx:8-14 | on integers, the map and the dashboard name the same tier |
| `EnvironmentalMap.GetAqiInfoMonotone` | client/src/component/EnvironmentalMap.jsx:8-14 | a higher parsed AQI never gets a less severe tier |
| `EnvironmentalMap.AllMinesInsideBounds` | client/src/component/EnvironmentalMap.jsx:67-70 | every mine of the table lies inside the box [[5.9, 68.1], [35.5, 97.4]] |
| `EnvironmentalMap.ZoneFor` | client/src/component/EnvironmentalMap.jsx:28-35 | a zone is centred on the station, has radius 25000 and takes the colour of the station's tier |
| `EnvironmentalMap.Without` | client/src/component/EnvironmentalMap.jsx:36 | removing a layer leaves exactly the other layers |
| `EnvironmentalMap.MarkerIcons` | client/src/component/EnvironmentalMap.jsx:92-96 | one icon per marker, in order, keyed by uid, at the marker's position, showing its AQI in its tier's colour |
| `EnvironmentalMap.FetchedMarkerKeysDistinct` | client/src/component/EnvironmentalMap.jsx:94 | the icons of a fetch's markers have pairwise distinct keys |
| `EnvironmentalMap.MapView.Valid` | client/src/component/EnvironmentalMap.jsx:24-57 | the invariant: while loading no overlay and no camera; otherwise the camera targets the latest centre and zoom and the overlays are exactly the selected station's zone, so at most one |
| `EnvironmentalMap.MapView.LiveZones` | client/src/component/EnvironmentalMap.jsx:24-37 | one overlay is on the map while a station is selected on a mounted map, none otherwise |
| `EnvironmentalMap.MapView.Rendered` | client/src/component/EnvironmentalMap.jsx:72-74 | nothing is rendered while loading, otherwise one marker per entry |
| `EnvironmentalMap.MapView.constructor` | client/src/component/EnvironmentalMap.jsx:64 | no station is selected initially and no overlay exists |
| `EnvironmentalMap.MapView.Render` | client/src/component/EnvironmentalMap.jsx:47-57 | after any new props the camera targets exactly the new centre and zoom (no camera while loading); the selection survives; the zone follows the map's mounting |
| `EnvironmentalMap.MapView.Click` | client/src/component/EnvironmentalMap.jsx:97-101 | a marker click selects that marker and is not undone by the background handler; a background click deselects; the overlays are then exactly the new selection's zone |
| `EnvironmentalMap.MapView.Unmount` | client/src/component/EnvironmentalMap.jsx:36 | teardown leaves no overlay on the map |
| `EnvironmentalMap.SequentialViews` | client/src/component/EnvironmentalMap.jsx:47-57 | of two view requests in a row, the camera settles on the second |

## Left out

- Network I/O is not modelled: the WAQI requests, `res.json()` and the `/api/geocode` request. Their settled results are parameters.
- `Promise.allSettled` concurrency is not modelled; the outcomes arrive already settled, in mine order.
- The fetch effect runs once on mount. The model has no mount scheduling: `BeginFetch` and `SettleFetch` are the two halves around the `await`.
- `HandleSearch` is atomic. Overlapping searches whose geocoding replies arrive out of order are not modelled. In the source the later reply to arrive wins.
- The geocoding request sends the query as typed, not lower-cased. The model takes the geocoding reply as a parameter that does not depend on the query, so the case-insensitivity of the geocoding path is assumed, not shown. `SearchIgnoresCase` holds for the same geocoding reply.
- `parseInt` string-prefix parsing is not modelled. A provider AQI is given as the integer `parseInt` yields, or `None` for NaN.
- `MarkerAqi` assumes `parseInt` returns a marker's integer unchanged. This fails for integers that JavaScript prints in exponent form (1e21 and above).
- Floating point is not modelled. Coordinates, zoom levels and the average are exact reals. `Math.round` is `Floor(x + 0.5)`. Infinity is not a value of `JsNumber`.
- `toLowerCase` is modelled on ASCII letters only. Every mine name is ASCII, but the query is free text, and its non-ASCII letters are not folded. JavaScript lower-cases U+212A KELVIN SIGN to `k`, so "\u212Aorba" finds the Korba mine in the source; in the model it falls through to geocoding.
- The memoisation of `averageAqi` (`useMemo`) is not modelled. The average is a function of the current markers.
- React compares the centre array by identity. The model compares values, so a repeated search to the same place changes nothing in the model, where the source would animate again to the same target.
- Leaflet rendering is not modelled: `flyTo` animation and duration, tiles, popups, the `L.divIcon` HTML, zone opacity and weight, scroll-wheel zoom. The minimum zoom 4 is only a constant (`EnvironmentalMap.MinZoom`); the camera's zoom is not clamped to it.
- MapView.Render: the camera records the target that `MapController` asks `flyTo` for, not where Leaflet puts the map. A centre with undefined coordinates (a geocoding reply without `latitude` or `longitude`) makes `flyTo` throw "Invalid LatLng object". No error boundary catches it, so the whole React tree unmounts; the model instead shows a camera on `LatLng(None, None)`. Likewise `maxBounds` pulls a geocoded target outside the India box back inside, while `camera` keeps the requested target.
- `alert` and `console.error` are not modelled. The alert is the `alerted` result of `HandleSearch`.
- The CSS class strings are carried but not reasoned about.
- server/server.js is not part of this model. It is an Express route over a search library.
- client/src/component/AdminDashboard.jsx and client/src/App.jsx are not part of this model. They hold routing and tab chrome.
