/** A selection made before a filter change, on the test stations. */
module StationsContextScenarios {
  import opened StationTypes
  import opened StationsApi
  import opened StationsApiScenarios
  import opened StationsContext

  /** With the München station (id 2) selected, filtering on "Berlin"
      shows stations 1 and 4 only and clears the selection; a Berlin
      station stays selected. */
  lemma SelectThenFilterBerlin(s: StationsState)
    requires TestCities(s.stations)
    requires s.stations[1].id != s.stations[0].id && s.stations[1].id != s.stations[3].id
    ensures var r := StationsReducer(StationsReducer(s, SelectStation(Some(s.stations[1].id))), SetFilter("Berlin"));
      && r.filteredStations == [s.stations[0], s.stations[3]]
      && r.selectedStationId == None
    ensures var r := StationsReducer(StationsReducer(s, SelectStation(Some(s.stations[3].id))), SetFilter("Berlin"));
      r.selectedStationId == Some(s.stations[3].id)
  {
    FilterBerlin(s.stations);
    var visible := [s.stations[0], s.stations[3]];
    SomeHasIdIff(visible, Some(s.stations[1].id));
    SomeHasIdIff(visible, Some(s.stations[3].id));
    assert visible[1].id == s.stations[3].id;
  }
}
