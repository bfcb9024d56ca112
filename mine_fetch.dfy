/** Post-processing of the per-mine air-quality fetches (`fetchMineAqiData`)
    and the average index the dashboard derives from the kept markers
    (`averageAqi`). The network is not modelled: the settled outcome of each
    mine's request is an input, one per mine and in the table's order. */
module MineFetch {
  import opened Wrappers
  import opened Sites

  /** The `data` object of a provider reply; `aqi` is what `parseInt` makes of
      `data.aqi`: `None` when that is NaN (for `'-'`, a missing field, ...). */
  datatype ApiData = ApiData(aqi: Option<int>)

  /** The parsed body of a provider reply. `NullResult` is a body of `null`,
      on which reading `.status` throws. An `Envelope` is any other body; its
      `data` is `None` when the field is missing or null, so that reading
      `.aqi` from it throws. */
  datatype ApiResult =
    | NullResult
    | Envelope(status: string, data: Option<ApiData>)

  /** One entry of `Promise.allSettled`: the request was rejected (network
      error, body not JSON) or fulfilled with the parsed body. */
  datatype Settled = Rejected | Fulfilled(apiResult: ApiResult)

  /** A mine enriched with its reply and its parsed index: `{...mine,
      apiResult, aqi}`. Only markers with an integer index are ever built. */
  datatype Marker = Marker(uid: string, name: string, lat: real, lon: real,
                           apiResult: ApiResult, aqi: int)

  /** The first filter: fulfilled and `apiResult.status === 'ok'`. */
  predicate StatusOk(o: Settled) {
    o.Fulfilled? && o.apiResult.Envelope? && o.apiResult.status == "ok"
  }

  /** An outcome on which the filtering code throws a TypeError: a fulfilled
      `null` body (read by the first filter) or an ok reply without `data`
      (read by the map step). */
  predicate Throws(o: Settled) {
    o.Fulfilled? &&
    (o.apiResult.NullResult? || (o.apiResult.status == "ok" && o.apiResult.data.None?))
  }

  /** An outcome that becomes a marker: it passes the status filter and its
      index parses to an integer, so the NaN filter keeps it. */
  predicate Usable(o: Settled) {
    StatusOk(o) && o.apiResult.data.Some? && o.apiResult.data.value.aqi.Some?
  }

  /** The marker built for a mine from a usable outcome. */
  function Enrich(mine: Mine, o: Settled): Marker
    requires Usable(o)
  {
    Marker(mine.uid, mine.name, mine.lat, mine.lon, o.apiResult, o.apiResult.data.value.aqi.value)
  }

  /** Filtering from position `j` on: the markers of the usable outcomes, in
      order, or `None` when the code throws on some outcome. */
  function MaterialiseFrom(mines: seq<Mine>, outcomes: seq<Settled>, j: nat): (r: Option<seq<Marker>>)
    requires |mines| == |outcomes| && j <= |outcomes|
    decreases |outcomes| - j
    ensures r.None? <==> exists k :: j <= k < |outcomes| && Throws(outcomes[k])
    ensures r.Some? ==> |r.value| <= |outcomes| - j
  {
    if j == |outcomes| then Some([])
    else if Throws(outcomes[j]) then None
    else
      match MaterialiseFrom(mines, outcomes, j + 1)
      case None => None
      case Some(rest) =>
        if Usable(outcomes[j]) then Some([Enrich(mines[j], outcomes[j])] + rest) else Some(rest)
  }

  /** The kept markers of a whole fetch over the mine table, or `None` when
      the filtering code throws. */
  function FetchedMarkers(outcomes: seq<Settled>): (r: Option<seq<Marker>>)
    requires |outcomes| == |AllIndianMines|
    ensures r.None? <==> exists k :: 0 <= k < |outcomes| && Throws(outcomes[k])
    ensures r.Some? ==> |r.value| <= 22
  {
    MaterialiseFrom(AllIndianMines, outcomes, 0)
  }

  /** The positions, from `j` on, of the outcomes that become markers: a
      reference list, strictly increasing, holding exactly the usable ones. */
  function KeptFrom(outcomes: seq<Settled>, j: nat): (idx: seq<nat>)
    requires j <= |outcomes|
    decreases |outcomes| - j
    ensures forall k :: 0 <= k < |idx| ==> j <= idx[k] < |outcomes| && Usable(outcomes[idx[k]])
    ensures forall k :: j <= k < |outcomes| && Usable(outcomes[k]) ==> k in idx
    ensures forall a, b :: 0 <= a < b < |idx| ==> idx[a] < idx[b]
  {
    if j == |outcomes| then []
    else if Usable(outcomes[j]) then [j] + KeptFrom(outcomes, j + 1)
    else KeptFrom(outcomes, j + 1)
  }

  /** The k-th of `ms` is the mine at the k-th of `idx`, enriched. */
  predicate EnrichedAt(ms: seq<Marker>, idx: seq<nat>, mines: seq<Mine>, outcomes: seq<Settled>)
    requires |mines| == |outcomes|
  {
    |ms| == |idx| &&
    forall k :: 0 <= k < |ms| ==>
      idx[k] < |outcomes| && Usable(outcomes[idx[k]]) && ms[k] == Enrich(mines[idx[k]], outcomes[idx[k]])
  }

  /** One step of the induction below: from position `j + 1` to `j`. */
  lemma MaterialiseStep(mines: seq<Mine>, outcomes: seq<Settled>, j: nat)
    requires |mines| == |outcomes| && j < |outcomes| && !Throws(outcomes[j])
    requires MaterialiseFrom(mines, outcomes, j + 1).Some?
    requires EnrichedAt(MaterialiseFrom(mines, outcomes, j + 1).value, KeptFrom(outcomes, j + 1), mines, outcomes)
    ensures MaterialiseFrom(mines, outcomes, j).Some?
    ensures EnrichedAt(MaterialiseFrom(mines, outcomes, j).value, KeptFrom(outcomes, j), mines, outcomes)
  {
    var rest := MaterialiseFrom(mines, outcomes, j + 1).value;
    var restIdx := KeptFrom(outcomes, j + 1);
    if Usable(outcomes[j]) {
      var ms := [Enrich(mines[j], outcomes[j])] + rest;
      var idx := [j] + restIdx;
      assert MaterialiseFrom(mines, outcomes, j) == Some(ms);
      assert KeptFrom(outcomes, j) == idx;
      forall k | 0 <= k < |ms|
        ensures idx[k] < |outcomes| && Usable(outcomes[idx[k]]) && ms[k] == Enrich(mines[idx[k]], outcomes[idx[k]])
      {
        if k > 0 {
          assert ms[k] == rest[k - 1] && idx[k] == restIdx[k - 1];
        }
      }
    } else {
      assert MaterialiseFrom(mines, outcomes, j) == Some(rest);
      assert KeptFrom(outcomes, j) == restIdx;
    }
  }

  /** When nothing throws, the k-th marker is the k-th usable mine enriched
      with its own reply: the markers are exactly the usable mines, in the
      table's order, with uid, name and position intact. */
  lemma {:induction false} MaterialiseKeepsUsableInOrder(mines: seq<Mine>, outcomes: seq<Settled>, j: nat)
    requires |mines| == |outcomes| && j <= |outcomes|
    requires forall k :: j <= k < |outcomes| ==> !Throws(outcomes[k])
    decreases |outcomes| - j
    ensures MaterialiseFrom(mines, outcomes, j).Some?
    ensures EnrichedAt(MaterialiseFrom(mines, outcomes, j).value, KeptFrom(outcomes, j), mines, outcomes)
  {
    if j < |outcomes| {
      MaterialiseKeepsUsableInOrder(mines, outcomes, j + 1);
      MaterialiseStep(mines, outcomes, j);
    }
  }

  /** A whole fetch: either the filtering throws (some outcome is a fulfilled
      `null` body or an ok reply without `data`), or it yields at most 22
      markers, which are the usable mines of the table in order, with
      pairwise distinct uids. */
  lemma FetchedMarkersSpec(outcomes: seq<Settled>)
    requires |outcomes| == |AllIndianMines|
    ensures FetchedMarkers(outcomes).None? <==> exists k :: 0 <= k < |outcomes| && Throws(outcomes[k])
    ensures FetchedMarkers(outcomes).Some? ==>
      var ms := FetchedMarkers(outcomes).value;
      var idx := KeptFrom(outcomes, 0);
      |ms| == |idx| <= 22 &&
      (forall k :: 0 <= k < |ms| ==> ms[k] == Enrich(AllIndianMines[idx[k]], outcomes[idx[k]])) &&
      (forall a, b :: 0 <= a < b < |ms| ==> ms[a].uid != ms[b].uid)
  {
    AllIndianMinesNumbered();
    if FetchedMarkers(outcomes).Some? {
      MaterialiseKeepsUsableInOrder(AllIndianMines, outcomes, 0);
      AllIndianMinesUidsDistinct();
      var ms := FetchedMarkers(outcomes).value;
      var idx := KeptFrom(outcomes, 0);
      forall a, b | 0 <= a < b < |ms| ensures ms[a].uid != ms[b].uid {
        assert ms[a].uid == AllIndianMines[idx[a]].uid;
        assert ms[b].uid == AllIndianMines[idx[b]].uid;
      }
    }
  }

  /** Sum of the markers' indices, added from the left as `reduce` does. */
  function SumAqi(markers: seq<Marker>): int {
    if markers == [] then 0 else SumAqi(markers[..|markers| - 1]) + markers[|markers| - 1].aqi
  }

  /** The left-to-right total equals the first index plus the total of the
      rest: the order of addition does not matter. */
  lemma {:induction false} SumAqiFromFront(markers: seq<Marker>)
    requires markers != []
    ensures SumAqi(markers) == markers[0].aqi + SumAqi(markers[1..])
  {
    var n := |markers|;
    if n > 1 {
      SumAqiFromFront(markers[..n - 1]);
      assert markers[..n - 1][1..] == markers[1..][..n - 2];
    }
  }

  /** The position of a smallest index in a non-empty list. */
  function ArgMinAqi(markers: seq<Marker>): (i: nat)
    requires markers != []
    ensures i < |markers| && forall k :: 0 <= k < |markers| ==> markers[i].aqi <= markers[k].aqi
  {
    if |markers| == 1 then 0
    else
      var j := ArgMinAqi(markers[1..]) + 1;
      if markers[0].aqi <= markers[j].aqi then 0 else j
  }

  /** The position of a largest index in a non-empty list. */
  function ArgMaxAqi(markers: seq<Marker>): (i: nat)
    requires markers != []
    ensures i < |markers| && forall k :: 0 <= k < |markers| ==> markers[k].aqi <= markers[i].aqi
  {
    if |markers| == 1 then 0
    else
      var j := ArgMaxAqi(markers[1..]) + 1;
      if markers[j].aqi <= markers[0].aqi then 0 else j
  }

  /** The sum lies between `n * lo` and `n * hi` when every index does. */
  lemma {:induction false} SumAqiBounds(markers: seq<Marker>, lo: int, hi: int)
    requires forall i :: 0 <= i < |markers| ==> lo <= markers[i].aqi <= hi
    ensures |markers| * lo <= SumAqi(markers) <= |markers| * hi
  {
    if markers != [] {
      SumAqiBounds(markers[..|markers| - 1], lo, hi);
    }
  }

  /** `averageAqi`: 0 for no markers, else the mean of their indices. */
  function AverageAqi(markers: seq<Marker>): (r: real)
    ensures markers == [] ==> r == 0.0
    ensures markers != [] ==> r * |markers| as real == SumAqi(markers) as real
  {
    if |markers| == 0 then 0.0 else SumAqi(markers) as real / |markers| as real
  }

  /** The average of a non-empty list lies between its smallest and its
      largest index. */
  lemma AverageBetweenMinAndMax(markers: seq<Marker>)
    requires markers != []
    ensures markers[ArgMinAqi(markers)].aqi as real <= AverageAqi(markers) <= markers[ArgMaxAqi(markers)].aqi as real
  {
    AverageWithinBounds(markers, markers[ArgMinAqi(markers)].aqi, markers[ArgMaxAqi(markers)].aqi);
  }

  lemma AverageWithinBounds(markers: seq<Marker>, lo: int, hi: int)
    requires markers != []
    requires forall i :: 0 <= i < |markers| ==> lo <= markers[i].aqi <= hi
    ensures lo as real <= AverageAqi(markers) <= hi as real
  {
    SumAqiBounds(markers, lo, hi);
    var n := |markers| as real;
    assert n * lo as real <= SumAqi(markers) as real <= n * hi as real;
    assert AverageAqi(markers) * n == SumAqi(markers) as real;
  }

  /** Three mines, two of which answer with indices 40 and 160 while the
      third request fails: two markers are kept and their average is 100. */
  lemma TwoOfThreeSitesExample(a: Mine, b: Mine, c: Mine)
    ensures var outcomes := [Fulfilled(Envelope("ok", Some(ApiData(Some(40))))),
                             Rejected,
                             Fulfilled(Envelope("ok", Some(ApiData(Some(160)))))];
      var r := MaterialiseFrom([a, b, c], outcomes, 0);
      r.Some? && |r.value| == 2 && r.value[0].uid == a.uid && r.value[1].uid == c.uid &&
      AverageAqi(r.value) == 100.0
  {
    var outcomes := [Fulfilled(Envelope("ok", Some(ApiData(Some(40))))),
                     Rejected,
                     Fulfilled(Envelope("ok", Some(ApiData(Some(160)))))];
    var r := MaterialiseFrom([a, b, c], outcomes, 0);
    var mines := [a, b, c];
    var ma, mc := Enrich(a, outcomes[0]), Enrich(c, outcomes[2]);
    assert MaterialiseFrom(mines, outcomes, 3) == Some([]);
    assert Usable(outcomes[2]) && !Throws(outcomes[2]) && [mc] + [] == [mc];
    assert MaterialiseFrom(mines, outcomes, 2) == Some([mc]);
    assert MaterialiseFrom(mines, outcomes, 1) == Some([mc]);
    assert r == Some([ma] + [mc]);
    assert [ma, mc][..1] == [ma] && [ma][..0] == [];
    assert SumAqi([ma]) == 40;
    assert SumAqi([ma, mc]) == 200;
  }
}
