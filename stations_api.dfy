/** Station repository access (src/api/stationsApi.ts): normalizing the raw
    records, loading them from an already-received fetch outcome, and the
    case-insensitive city filter. */
module StationsApi {
  import opened StationTypes
  import opened Text

  // ---------------------------------------------------------------------
  // Normalization
  // ---------------------------------------------------------------------

  const UnknownStationName := "Unknown Station"
  const UnknownCityName := "Unknown City"

  /** JavaScript falsiness of an optional string field: missing, null or "". */
  predicate FalsyText(field: Option<string>) {
    field.None? || field.value == ""
  }

  /** JavaScript falsiness of an optional number field: missing, null or 0. */
  predicate FalsyNumber(field: Option<real>) {
    field.None? || field.value == 0.0
  }

  /** `normalizeStation`: a field-by-field `||` coalesce onto defaults. */
  function NormalizeStation(raw: RawStation): (s: Station)
    ensures s.id == raw.id
    ensures s.name != [] && s.city != []
    ensures s.name == (if FalsyText(raw.name) then UnknownStationName else raw.name.value)
    ensures s.city == (if FalsyText(raw.city) then UnknownCityName else raw.city.value)
    // a coordinate of 0 and a missing one are indistinguishable afterwards
    ensures s.lat == (if raw.lat.Some? then raw.lat.value else 0.0)
    ensures s.lng == (if raw.lng.Some? then raw.lng.value else 0.0)
  {
    Station(
      raw.id,
      if !FalsyText(raw.name) then raw.name.value else UnknownStationName,
      if !FalsyText(raw.city) then raw.city.value else UnknownCityName,
      if !FalsyNumber(raw.lat) then raw.lat.value else 0.0,
      if !FalsyNumber(raw.lng) then raw.lng.value else 0.0)
  }

  /** The raw record that carries every field of `s`. */
  function AsRaw(s: Station): RawStation {
    RawStation(s.id, Some(s.name), Some(s.city), Some(s.lat), Some(s.lng))
  }

  /** A complete record with non-empty texts comes through unchanged. */
  lemma NormalizeKeepsCompleteStation(s: Station)
    requires s.name != [] && s.city != []
    ensures NormalizeStation(AsRaw(s)) == s
  {
  }

  /** Normalizing an already normalized station changes nothing. */
  lemma NormalizeIdempotent(raw: RawStation)
    ensures NormalizeStation(AsRaw(NormalizeStation(raw))) == NormalizeStation(raw)
  {
    NormalizeKeepsCompleteStation(NormalizeStation(raw));
  }

  /** A record holding only its id gets every default. */
  lemma NormalizeIdOnly(id: int)
    ensures NormalizeStation(RawStation(id, None, None, None, None))
         == Station(id, "Unknown Station", "Unknown City", 0.0, 0.0)
  {
  }

  // ---------------------------------------------------------------------
  // Loading
  // ---------------------------------------------------------------------

  /** What a `throw` or a rejected promise carries: an `Error` instance
      with its message, or any other value. */
  datatype Thrown = ErrorObject(message: string) | OtherValue

  /** What `response.json()` produced. */
  datatype Body =
    | JsonArray(items: seq<RawStation>)
    | JsonOther
    | JsonRejected(reason: Thrown)

  /** What the request produced: a response, or a rejection before any. */
  datatype FetchOutcome =
    | Responded(ok: bool, status: int, body: Body)
    | NetworkRejected(reason: Thrown)

  const FetchFailedPrefix := "Failed to fetch stations: "
  const InvalidFormatMessage := "Invalid data format: expected array"

  /** `data.map(normalizeStation)`. */
  function NormalizeAll(items: seq<RawStation>): (r: seq<Station>)
    ensures |r| == |items|
    ensures forall i :: 0 <= i < |items| ==> r[i] == NormalizeStation(items[i])
  {
    if items == [] then [] else [NormalizeStation(items[0])] + NormalizeAll(items[1..])
  }

  /** `fetchStations` once the request has settled: a rejection propagates,
      a non-ok status and a non-array body each throw their own `Error`,
      and otherwise every element is normalized in order. */
  function FetchStations(outcome: FetchOutcome): (r: Result<seq<Station>, Thrown>)
    ensures outcome.NetworkRejected? ==> r == Failure(outcome.reason)
    ensures outcome.Responded? && !outcome.ok ==>
      r == Failure(ErrorObject(FetchFailedPrefix + IntToDecimal(outcome.status)))
    ensures outcome.Responded? && outcome.ok && outcome.body.JsonRejected? ==>
      r == Failure(outcome.body.reason)
    ensures outcome.Responded? && outcome.ok && outcome.body.JsonOther? ==>
      r == Failure(ErrorObject(InvalidFormatMessage))
    ensures r.Success? <==> outcome.Responded? && outcome.ok && outcome.body.JsonArray?
    ensures r.Success? ==>
      |r.value| == |outcome.body.items| &&
      forall i :: 0 <= i < |r.value| ==> r.value[i] == NormalizeStation(outcome.body.items[i])
  {
    match outcome
    case NetworkRejected(reason) => Failure(reason)
    case Responded(ok, status, body) =>
      if !ok then Failure(ErrorObject(FetchFailedPrefix + IntToDecimal(status)))
      else match body
        case JsonRejected(reason) => Failure(reason)
        case JsonOther => Failure(ErrorObject(InvalidFormatMessage))
        case JsonArray(items) => Success(NormalizeAll(items))
  }

  /** The status code can be read back from a non-ok failure's message. */
  lemma FetchFailureCarriesStatus(status: nat, body: Body)
    ensures var r := FetchStations(Responded(false, status, body));
      && r.Failure? && r.error.ErrorObject?
      && |r.error.message| > |FetchFailedPrefix|
      && r.error.message[..|FetchFailedPrefix|] == FetchFailedPrefix
      && DecimalValue(r.error.message[|FetchFailedPrefix|..]) == status
  {
    var msg := FetchFailedPrefix + NatToDecimal(status);
    assert msg[|FetchFailedPrefix|..] == NatToDecimal(status);
    DecimalRoundTrip(status);
  }

  // ---------------------------------------------------------------------
  // Filtering
  // ---------------------------------------------------------------------

  /** The filter as it is compared: `cityFilter.toLowerCase().trim()`. */
  function NormalizeFilter(cityFilter: string): string {
    Trim(Lower(cityFilter))
  }

  /** The callback of `stations.filter`: the lower-cased city includes the
      normalized filter. */
  predicate CityMatches(station: Station, filter: string) {
    Includes(Lower(station.city), filter)
  }

  /** The specification of a match, free of the scanning search. */
  ghost predicate CityContains(station: Station, filter: string) {
    IsSubstring(filter, Lower(station.city))
  }

  /** `Array.prototype.filter` with `CityMatches`. */
  function KeepMatching(stations: seq<Station>, filter: string): seq<Station> {
    if stations == [] then []
    else if CityMatches(stations[0], filter) then [stations[0]] + KeepMatching(stations[1..], filter)
    else KeepMatching(stations[1..], filter)
  }

  /** `filterStationsByCity`. */
  function FilterStationsByCity(stations: seq<Station>, cityFilter: string): seq<Station> {
    var filter := NormalizeFilter(cityFilter);
    if filter == [] then stations else KeepMatching(stations, filter)
  }

  /** A city that the filter callback rejects under the non-blank normalized
      filter `nf`. */
  function CityAvoiding(nf: string): (city: string)
    requires nf != []
    ensures !Includes(Lower(city), nf)
  {
    if nf == "a" then "b" else "a"
  }

  /** `a` is `b` with some elements dropped and the rest kept in order. */
  ghost predicate IsSubsequence<T>(a: seq<T>, b: seq<T>)
    decreases |b|
  {
    || a == []
    || (b != [] && ((a[0] == b[0] && IsSubsequence(a[1..], b[1..])) || IsSubsequence(a, b[1..])))
  }

  lemma {:induction false} SubsequenceReflexive<T>(a: seq<T>)
    ensures IsSubsequence(a, a)
  {
    if a != [] {
      SubsequenceReflexive(a[1..]);
    }
  }

  lemma {:induction false} SubsequenceShorter<T>(a: seq<T>, b: seq<T>)
    requires IsSubsequence(a, b)
    ensures |a| <= |b|
    decreases |b|
  {
    if a != [] {
      if a[0] == b[0] && IsSubsequence(a[1..], b[1..]) {
        SubsequenceShorter(a[1..], b[1..]);
      } else {
        SubsequenceShorter(a, b[1..]);
      }
    }
  }

  lemma {:induction false} KeepMatchingIsSubsequence(stations: seq<Station>, filter: string)
    ensures IsSubsequence(KeepMatching(stations, filter), stations)
  {
    if stations != [] {
      KeepMatchingIsSubsequence(stations[1..], filter);
    }
  }

  lemma {:induction false} KeepMatchingMembership(stations: seq<Station>, filter: string)
    ensures forall x :: x in KeepMatching(stations, filter) <==> x in stations && CityContains(x, filter)
  {
    if stations != [] {
      KeepMatchingMembership(stations[1..], filter);
      IncludesIsSubstring(Lower(stations[0].city), filter);
      assert stations == [stations[0]] + stations[1..];
    }
  }

  /** A city lacking one of the filter's characters does not match. */
  lemma NoMatchWithoutChar(x: Station, filter: string, c: char)
    requires c in filter && c !in Lower(x.city)
    ensures !CityMatches(x, filter)
  {
    IncludedCharsOccur(Lower(x.city), filter);
  }

  /** `filter` distributes over concatenation. */
  lemma {:induction false} KeepMatchingAppend(xs: seq<Station>, ys: seq<Station>, filter: string)
    ensures KeepMatching(xs + ys, filter) == KeepMatching(xs, filter) + KeepMatching(ys, filter)
  {
    if xs == [] {
      assert xs + ys == ys;
    } else {
      assert (xs + ys)[1..] == xs[1..] + ys;
      KeepMatchingAppend(xs[1..], ys, filter);
    }
  }

  /** A blank or whitespace-only filter returns the stations unchanged. */
  lemma FilterBlankIsIdentity(stations: seq<Station>, cityFilter: string)
    requires AllWhitespace(cityFilter)
    ensures FilterStationsByCity(stations, cityFilter) == stations
  {
    LowerKeepsAllWhitespace(cityFilter);
    TrimEmptyIff(Lower(cityFilter));
  }

  /** The filter trims to nothing exactly when it is whitespace only. */
  lemma NormalizeFilterEmptyIff(cityFilter: string)
    ensures NormalizeFilter(cityFilter) == [] <==> AllWhitespace(cityFilter)
  {
    LowerKeepsAllWhitespace(cityFilter);
    TrimEmptyIff(Lower(cityFilter));
  }

  /** Soundness and completeness: with a non-blank filter, a station is in
      the result exactly when it is an input station whose lower-cased city
      contains the normalized filter. */
  lemma FilterMembership(stations: seq<Station>, cityFilter: string)
    requires NormalizeFilter(cityFilter) != []
    ensures forall x :: x in FilterStationsByCity(stations, cityFilter) <==>
      x in stations && CityContains(x, NormalizeFilter(cityFilter))
  {
    KeepMatchingMembership(stations, NormalizeFilter(cityFilter));
  }

  /** The result keeps input order and never has more stations. */
  lemma FilterIsSubsequence(stations: seq<Station>, cityFilter: string)
    ensures IsSubsequence(FilterStationsByCity(stations, cityFilter), stations)
    ensures |FilterStationsByCity(stations, cityFilter)| <= |stations|
  {
    if NormalizeFilter(cityFilter) == [] {
      SubsequenceReflexive(stations);
    } else {
      KeepMatchingIsSubsequence(stations, NormalizeFilter(cityFilter));
    }
    SubsequenceShorter(FilterStationsByCity(stations, cityFilter), stations);
  }

  /** Whitespace around the filter does not change the result. */
  lemma FilterIgnoresSurroundingWhitespace(stations: seq<Station>, lead: string, cityFilter: string, trail: string)
    requires AllWhitespace(lead) && AllWhitespace(trail)
    ensures FilterStationsByCity(stations, lead + cityFilter + trail) == FilterStationsByCity(stations, cityFilter)
  {
    LowerConcat(lead + cityFilter, trail);
    LowerConcat(lead, cityFilter);
    LowerKeepsAllWhitespace(lead);
    LowerKeepsAllWhitespace(trail);
    TrimSurrounding(Lower(lead), Lower(cityFilter), Lower(trail));
  }

  /** The case of the filter does not change the result. */
  lemma FilterIgnoresCase(stations: seq<Station>, cityFilter: string)
    ensures FilterStationsByCity(stations, Lower(cityFilter)) == FilterStationsByCity(stations, cityFilter)
  {
    LowerIdempotent(cityFilter);
  }
}
