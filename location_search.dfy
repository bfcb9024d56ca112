/** Resolution of the dashboard's search text (`handleSearch`): first a
    case-insensitive substring match against the mine table, then the
    geocoding service, whose reply is an input here. */
module LocationSearch {
  import opened Wrappers
  import opened Sites

  /** `toLowerCase` on one character: ASCII capitals become small letters. */
  function LowerChar(c: char): char {
    if 'A' <= c <= 'Z' then (c as int - 'A' as int + 'a' as int) as char else c
  }

  /** `toLowerCase` on a string: same length, each ASCII capital becomes
      the small letter at the same alphabet position, and every other
      character is kept, so no ASCII capital is left. */
  function ToLower(s: string): (r: string)
    ensures |r| == |s|
    ensures forall i :: 0 <= i < |s| ==>
      !('A' <= r[i] <= 'Z') &&
      ('A' <= s[i] <= 'Z' ==> r[i] == (s[i] as int - 'A' as int + 'a' as int) as char) &&
      (!('A' <= s[i] <= 'Z') ==> r[i] == s[i])
  {
    seq(|s|, i requires 0 <= i < |s| => LowerChar(s[i]))
  }

  /** Lower-casing twice is lower-casing once. */
  lemma ToLowerIdempotent(s: string)
    ensures ToLower(ToLower(s)) == ToLower(s)
  {
    assert forall i :: 0 <= i < |s| ==> ToLower(ToLower(s))[i] == ToLower(s)[i];
  }

  /** `needle` occurs in `hay` starting at position `k`. */
  predicate OccursAt(hay: string, needle: string, k: int) {
    0 <= k && k + |needle| <= |hay| && hay[k..k + |needle|] == needle
  }

  /** `indexOf(needle, from)`: the first position at or after `from` where
      `needle` occurs, if any. */
  function IndexOfFrom(hay: string, needle: string, from: nat): (r: Option<nat>)
    decreases |hay| + 1 - from
    ensures r.Some? ==>
      from <= r.value && OccursAt(hay, needle, r.value) &&
      forall k :: from <= k < r.value ==> !OccursAt(hay, needle, k)
    ensures r.None? ==> forall k :: from <= k ==> !OccursAt(hay, needle, k)
  {
    if from + |needle| > |hay| then None
    else if hay[from..from + |needle|] == needle then Some(from)
    else IndexOfFrom(hay, needle, from + 1)
  }

  /** `includes`: `needle` occurs somewhere in `hay`. */
  function Includes(hay: string, needle: string): (b: bool)
    ensures b <==> exists k :: OccursAt(hay, needle, k)
  {
    IndexOfFrom(hay, needle, 0).Some?
  }

  /** `mine.name.toLowerCase().includes(query)` with the lower-cased query. */
  predicate NameMatches(mine: Mine, query: string) {
    Includes(ToLower(mine.name), ToLower(query))
  }

  /** `allIndianMines.find(...)` from position `from` on: the first mine
      whose name contains the query, ignoring case. */
  function FindMine(mines: seq<Mine>, query: string, from: nat): (r: Option<nat>)
    requires from <= |mines|
    decreases |mines| - from
    ensures r.Some? ==>
      from <= r.value < |mines| && NameMatches(mines[r.value], query) &&
      forall k :: from <= k < r.value ==> !NameMatches(mines[k], query)
    ensures r.None? ==> forall k :: from <= k < |mines| ==> !NameMatches(mines[k], query)
  {
    if from == |mines| then None
    else if NameMatches(mines[from], query) then Some(from)
    else FindMine(mines, query, from + 1)
  }

  /** Zoom level for a matched mine and for a geocoded place. */
  const MineZoom: real := 12.0
  const GeocodeZoom: real := 9.0

  /** What the `/api/geocode` request yields. `Failed` is a rejected fetch, a
      non-2xx response, a body that is not JSON, or a `null` body: each makes
      the code throw and alert. Any other body is a `Reply`, whose fields are
      `None` when the body lacks them: the code then uses `undefined`. */
  datatype GeocodeReply = Failed | Reply(latitude: Option<real>, longitude: Option<real>)

  /** The effect a search submission has on the camera target. */
  datatype SearchOutcome =
    | Skipped                                  // empty query: nothing happens
    | FlyTo(center: LatLng, zoom: real)        // new `mapCenter` and `mapZoom`
    | NotFound                                 // alert, nothing changes

  /** The decision `handleSearch` takes for a query, the mine table and the
      reply the geocoding service would give. */
  function Resolve(query: string, mines: seq<Mine>, reply: GeocodeReply): (r: SearchOutcome)
    ensures r.Skipped? <==> query == ""
    ensures r.NotFound? ==> reply.Failed?
  {
    if query == "" then Skipped
    else
      match FindMine(mines, query, 0)
      case Some(i) => FlyTo(At(mines[i].lat, mines[i].lon), MineZoom)
      case None =>
        match reply
        case Failed => NotFound
        case Reply(lat, lon) => FlyTo(LatLng(lat, lon), GeocodeZoom)
  }

  /** A query contained, ignoring case, in the name of the i-th mine and of no
      earlier one flies to that mine at zoom 12, whatever the geocoder says. */
  lemma SearchPicksFirstMatchingMine(query: string, mines: seq<Mine>, reply: GeocodeReply, i: nat)
    requires query != "" && i < |mines| && NameMatches(mines[i], query)
    requires forall k :: 0 <= k < i ==> !NameMatches(mines[k], query)
    ensures Resolve(query, mines, reply) == FlyTo(At(mines[i].lat, mines[i].lon), MineZoom)
  {
    assert FindMine(mines, query, 0) == Some(i);
  }

  /** When some mine matches, the geocoding reply is never consulted. */
  lemma MineMatchIgnoresGeocode(query: string, mines: seq<Mine>, r1: GeocodeReply, r2: GeocodeReply, i: nat)
    requires query != "" && i < |mines| && NameMatches(mines[i], query)
    ensures Resolve(query, mines, r1) == Resolve(query, mines, r2)
    ensures Resolve(query, mines, r1).FlyTo? && Resolve(query, mines, r1).zoom == MineZoom
  {
    assert FindMine(mines, query, 0).Some?;
  }

  /** When no mine matches, a reply flies to its coordinates at zoom 9 and a
      failure is NotFound. */
  lemma SearchFallsBackToGeocode(query: string, mines: seq<Mine>, reply: GeocodeReply)
    requires query != ""
    requires forall k :: 0 <= k < |mines| ==> !NameMatches(mines[k], query)
    ensures Resolve(query, mines, reply) ==
      match reply
      case Failed => NotFound
      case Reply(lat, lon) => FlyTo(LatLng(lat, lon), GeocodeZoom)
  {
    assert FindMine(mines, query, 0).None?;
  }

  /** The search ignores case: a query and its lower-cased form resolve alike. */
  lemma SearchIgnoresCase(query: string, mines: seq<Mine>, reply: GeocodeReply)
    ensures Resolve(ToLower(query), mines, reply) == Resolve(query, mines, reply)
  {
    ToLowerIdempotent(query);
    assert |ToLower(query)| == |query|;
    assert forall k :: 0 <= k < |mines| ==> NameMatches(mines[k], ToLower(query)) == NameMatches(mines[k], query);
    assert FindMine(mines, ToLower(query), 0) == FindMine(mines, query, 0) by {
      FindMineRespectsLowerCase(mines, query, 0);
    }
  }

  lemma FindMineRespectsLowerCase(mines: seq<Mine>, query: string, from: nat)
    requires from <= |mines|
    ensures FindMine(mines, ToLower(query), from) == FindMine(mines, query, from)
  {
    forall k | from <= k < |mines|
      ensures NameMatches(mines[k], ToLower(query)) == NameMatches(mines[k], query)
    {
      LowerQueryMatchesAlike(mines[k], query);
    }
    FindMineByMatches(mines, ToLower(query), query, from);
  }

  /** Two queries that match the same mines find the same one. */
  lemma {:induction false} FindMineByMatches(mines: seq<Mine>, q1: string, q2: string, from: nat)
    requires from <= |mines|
    requires forall k :: from <= k < |mines| ==> NameMatches(mines[k], q1) == NameMatches(mines[k], q2)
    decreases |mines| - from
    ensures FindMine(mines, q1, from) == FindMine(mines, q2, from)
  {
    if from < |mines| {
      FindMineByMatches(mines, q1, q2, from + 1);
    }
  }

  /** A mine matches a query exactly when it matches its lower-cased form. */
  lemma LowerQueryMatchesAlike(mine: Mine, query: string)
    ensures NameMatches(mine, ToLower(query)) == NameMatches(mine, query)
  {
    ToLowerIdempotent(query);
  }

  /** Typing a mine's full name, in any case, always lands on a mine (that
      one, or an earlier one whose name contains it) at zoom 12. */
  lemma SearchByFullNameFindsAMine(mines: seq<Mine>, i: nat, reply: GeocodeReply)
    requires i < |mines| && mines[i].name != ""
    ensures var r := Resolve(mines[i].name, mines, reply);
      r.FlyTo? && r.zoom == MineZoom &&
      exists k :: 0 <= k <= i && r.center == At(mines[k].lat, mines[k].lon)
  {
    var lower := ToLower(mines[i].name);
    assert lower[0..|lower|] == lower;
    assert OccursAt(lower, lower, 0);
    assert NameMatches(mines[i], mines[i].name);
    var f := FindMine(mines, mines[i].name, 0);
    assert f.Some? && f.value <= i;
  }

  /** A query equal to a mine's name up to ASCII case, such as "JHARIA
      COALFIELD, DHANBAD", lands at zoom 12 on that mine or an earlier one. */
  lemma SearchAnyCaseOfNameFindsAMine(query: string, mines: seq<Mine>, i: nat, reply: GeocodeReply)
    requires i < |mines| && query != "" && ToLower(query) == ToLower(mines[i].name)
    ensures var r := Resolve(query, mines, reply);
      r.FlyTo? && r.zoom == MineZoom &&
      exists k :: 0 <= k <= i && r.center == At(mines[k].lat, mines[k].lon)
  {
    SearchIgnoresCase(query, mines, reply);
    SearchIgnoresCase(mines[i].name, mines, reply);
    assert mines[i].name != "" by {
      assert |mines[i].name| == |ToLower(query)| == |query|;
    }
    SearchByFullNameFindsAMine(mines, i, reply);
  }
}
