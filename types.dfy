/** Value shapes shared by the station access layer and the state machine:
    the station record, the raw record the endpoint returns, the aggregate
    state and the closed set of actions (src/types/index.ts). */
module StationTypes {

  datatype Option<+T> = None | Some(value: T)

  /** A load either yields a value or fails with what was thrown. */
  datatype Result<+T, +E> = Success(value: T) | Failure(error: E)

  /** A normalized station. Coordinates are carried, never computed with. */
  datatype Station = Station(id: int, name: string, city: string, lat: real, lng: real)

  /** One element of the endpoint's JSON array before normalization.
      `None` stands for a missing or null field. */
  datatype RawStation = RawStation(
    id: int,
    name: Option<string>,
    city: Option<string>,
    lat: Option<real>,
    lng: Option<real>)

  /** The single aggregate owned by the provider. */
  datatype StationsState = StationsState(
    stations: seq<Station>,
    filteredStations: seq<Station>,
    cityFilter: string,
    selectedStationId: Option<int>,
    isLoading: bool,
    error: Option<string>)

  /** The six action variants, plus `Unrecognized` for any other value that
      reaches the reducer's default branch. */
  datatype StationsAction =
    | SetLoading
    | SetStations(stations: seq<Station>)
    | SetError(message: string)
    | SetFilter(filter: string)
    | SelectStation(id: Option<int>)
    | ClearSelection
    | Unrecognized
}
