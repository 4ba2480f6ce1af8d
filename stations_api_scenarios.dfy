/** The five stations of src/__tests__/stationsApi.test.ts (cities Berlin,
    München, Hamburg, Berlin, Frankfurt) and what the filter yields on them
    for the filters those tests use. */
module StationsApiScenarios {
  import opened StationTypes
  import opened Text
  import opened StationsApi

  /** The test stations as far as the filter can see them: only the city
      counts, so names, ids and coordinates are left free. */
  predicate TestCities(stations: seq<Station>) {
    && |stations| == 5
    && stations[0].city == "Berlin"
    && stations[1].city == "München"
    && stations[2].city == "Hamburg"
    && stations[3].city == "Berlin"
    && stations[4].city == "Frankfurt"
  }

  /** The station as a one-element result of the filter callback. */
  function KeepIf(x: Station, filter: string): seq<Station> {
    if CityMatches(x, filter) then [x] else []
  }

  lemma KeepMatchingOne(x: Station, filter: string)
    ensures KeepMatching([x], filter) == KeepIf(x, filter)
  {
    assert [x][1..] == [];
  }

  /** The filter callback over five stations, one at a time. */
  lemma KeepMatchingFive(stations: seq<Station>, filter: string)
    requires |stations| == 5
    ensures KeepMatching(stations, filter)
         == KeepIf(stations[0], filter) + KeepIf(stations[1], filter) + KeepIf(stations[2], filter)
          + KeepIf(stations[3], filter) + KeepIf(stations[4], filter)
  {
    var s := stations;
    assert s == [s[0]] + [s[1]] + [s[2]] + [s[3]] + [s[4]];
    KeepMatchingAppend([s[0]] + [s[1]] + [s[2]] + [s[3]], [s[4]], filter);
    KeepMatchingAppend([s[0]] + [s[1]] + [s[2]], [s[3]], filter);
    KeepMatchingAppend([s[0]] + [s[1]], [s[2]], filter);
    KeepMatchingAppend([s[0]], [s[1]], filter);
    KeepMatchingOne(s[0], filter);
    KeepMatchingOne(s[1], filter);
    KeepMatchingOne(s[2], filter);
    KeepMatchingOne(s[3], filter);
    KeepMatchingOne(s[4], filter);
  }

  // Lower-cased test cities and filters.

  lemma LowerBerlin()
    ensures Lower("Berlin") == "berlin"
  {
  }

  lemma LowerMuenchen()
    ensures Lower("München") == "münchen" && Lower("MÜNCHEN") == "münchen"
  {
  }

  lemma LowerHamburg()
    ensures Lower("Hamburg") == "hamburg"
  {
  }

  lemma LowerFrankfurt()
    ensures Lower("Frankfurt") == "frankfurt"
  {
  }

  // Which test city matches which lower-cased filter.

  /** A city lacking one of the filter's characters, per test city. */
  lemma BerlinLacks(x: Station, filter: string, c: char)
    requires x.city == "Berlin" && c in filter && c !in "berlin"
    ensures !CityMatches(x, filter)
  {
    LowerBerlin();
    NoMatchWithoutChar(x, filter, c);
  }

  lemma MuenchenLacks(x: Station, filter: string, c: char)
    requires x.city == "München" && c in filter && c !in "münchen"
    ensures !CityMatches(x, filter)
  {
    LowerMuenchen();
    NoMatchWithoutChar(x, filter, c);
  }

  lemma HamburgLacks(x: Station, filter: string, c: char)
    requires x.city == "Hamburg" && c in filter && c !in "hamburg"
    ensures !CityMatches(x, filter)
  {
    LowerHamburg();
    NoMatchWithoutChar(x, filter, c);
  }

  lemma FrankfurtLacks(x: Station, filter: string, c: char)
    requires x.city == "Frankfurt" && c in filter && c !in "frankfurt"
    ensures !CityMatches(x, filter)
  {
    LowerFrankfurt();
    NoMatchWithoutChar(x, filter, c);
  }

  lemma BerlinAgainstBerlin(x: Station)
    requires x.city == "Berlin"
    ensures CityMatches(x, "berlin")
  {
    LowerBerlin();
  }

  lemma MuenchenAgainstMuenchen(x: Station)
    requires x.city == "München"
    ensures CityMatches(x, "münchen")
  {
    LowerMuenchen();
  }

  lemma HamburgAgainstHam(x: Station)
    requires x.city == "Hamburg"
    ensures CityMatches(x, "ham")
  {
    LowerHamburg();
  }

  lemma MuenchenAgainstMuench(x: Station)
    requires x.city == "München"
    ensures CityMatches(x, "münch")
  {
    LowerMuenchen();
  }

  /** Filter "Berlin" keeps stations 1 and 4, in that order. */
  lemma FilterBerlin(stations: seq<Station>)
    requires TestCities(stations)
    ensures FilterStationsByCity(stations, "Berlin") == [stations[0], stations[3]]
  {
    NormalizeBerlin();
    KeepBerlin(stations);
  }

  lemma NormalizeBerlin()
    ensures NormalizeFilter("Berlin") == "berlin"
  {
    LowerBerlin();
  }

  lemma KeepBerlin(stations: seq<Station>)
    requires TestCities(stations)
    ensures KeepMatching(stations, "berlin") == [stations[0], stations[3]]
  {
    var s := stations;
    BerlinAgainstBerlin(s[0]);
    MuenchenLacks(s[1], "berlin", 'b');
    HamburgLacks(s[2], "berlin", 'e');
    BerlinAgainstBerlin(s[3]);
    FrankfurtLacks(s[4], "berlin", 'b');
    KeepMatchingFive(s, "berlin");
  }

  /** Filter "  Berlin  " gives what "Berlin" gives. */
  lemma FilterPaddedBerlin(stations: seq<Station>)
    requires TestCities(stations)
    ensures FilterStationsByCity(stations, "  Berlin  ") == [stations[0], stations[3]]
  {
    FilterBerlin(stations);
    assert "  Berlin  " == "  " + "Berlin" + "  ";
    FilterIgnoresSurroundingWhitespace(stations, "  ", "Berlin", "  ");
  }

  /** Filter "MÜNCHEN" matches the city "München" despite the umlaut's case. */
  lemma FilterUpperMuenchen(stations: seq<Station>)
    requires TestCities(stations)
    ensures FilterStationsByCity(stations, "MÜNCHEN") == [stations[1]]
  {
    NormalizeUpperMuenchen();
    KeepMuenchen(stations);
  }

  lemma NormalizeUpperMuenchen()
    ensures NormalizeFilter("MÜNCHEN") == "münchen"
  {
    LowerMuenchen();
  }

  lemma KeepMuenchen(stations: seq<Station>)
    requires TestCities(stations)
    ensures KeepMatching(stations, "münchen") == [stations[1]]
  {
    var s := stations;
    BerlinLacks(s[0], "münchen", 'm');
    MuenchenAgainstMuenchen(s[1]);
    HamburgLacks(s[2], "münchen", 'ü');
    BerlinLacks(s[3], "münchen", 'm');
    FrankfurtLacks(s[4], "münchen", 'm');
    KeepMatchingFive(s, "münchen");
  }

  /** Filter "Ham" is a partial match: only Hamburg contains it. */
  lemma FilterHam(stations: seq<Station>)
    requires TestCities(stations)
    ensures FilterStationsByCity(stations, "Ham") == [stations[2]]
  {
    NormalizeHam();
    KeepHam(stations);
  }

  lemma NormalizeHam()
    ensures NormalizeFilter("Ham") == "ham"
  {
    TrimKeepsNonBlankEnds("ham");
  }

  lemma KeepHam(stations: seq<Station>)
    requires TestCities(stations)
    ensures KeepMatching(stations, "ham") == [stations[2]]
  {
    var s := stations;
    BerlinLacks(s[0], "ham", 'h');
    MuenchenLacks(s[1], "ham", 'a');
    HamburgAgainstHam(s[2]);
    BerlinLacks(s[3], "ham", 'h');
    FrankfurtLacks(s[4], "ham", 'h');
    KeepMatchingFive(s, "ham");
  }

  /** Filter "Münch", with its non-ASCII letter, matches only München. */
  lemma FilterMuench(stations: seq<Station>)
    requires TestCities(stations)
    ensures FilterStationsByCity(stations, "Münch") == [stations[1]]
  {
    NormalizeMuench();
    KeepMuench(stations);
  }

  lemma NormalizeMuench()
    ensures NormalizeFilter("Münch") == "münch"
  {
    TrimKeepsNonBlankEnds("münch");
  }

  lemma KeepMuench(stations: seq<Station>)
    requires TestCities(stations)
    ensures KeepMatching(stations, "münch") == [stations[1]]
  {
    var s := stations;
    BerlinLacks(s[0], "münch", 'm');
    MuenchenAgainstMuench(s[1]);
    HamburgLacks(s[2], "münch", 'ü');
    BerlinLacks(s[3], "münch", 'm');
    FrankfurtLacks(s[4], "münch", 'm');
    KeepMatchingFive(s, "münch");
  }
}
