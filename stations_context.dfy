/** The stations state machine (src/context/StationsContext.tsx): the
    initial state, the pure reducer over the closed action type, and the
    provider that owns the state and orchestrates a load. */
module StationsContext {
  import opened StationTypes
  import opened Text
  import opened StationsApi

  // ---------------------------------------------------------------------
  // Initial state and reducer
  // ---------------------------------------------------------------------

  /** Empty lists, blank filter, nothing selected, loading, no error. */
  const InitialState := StationsState([], [], "", None, true, None)

  /** `filtered.some((s) => s.id === selectedStationId)`: a null selection
      never equals a numeric id. */
  function SomeHasId(stations: seq<Station>, selected: Option<int>): bool {
    if stations == [] then false
    else (selected.Some? && stations[0].id == selected.value) || SomeHasId(stations[1..], selected)
  }

  /** Some station in `stations` carries `id`. */
  ghost predicate ShowsId(stations: seq<Station>, id: int) {
    exists i :: 0 <= i < |stations| && stations[i].id == id
  }

  lemma {:induction false} SomeHasIdIff(stations: seq<Station>, selected: Option<int>)
    ensures SomeHasId(stations, selected) <==> selected.Some? && ShowsId(stations, selected.value)
  {
    if stations != [] {
      SomeHasIdIff(stations[1..], selected);
      if selected.Some? && ShowsId(stations[1..], selected.value) {
        var i :| 0 <= i < |stations[1..]| && stations[1..][i].id == selected.value;
        assert stations[i + 1].id == selected.value;
      }
      if selected.Some? && ShowsId(stations, selected.value) && stations[0].id != selected.value {
        var i :| 0 <= i < |stations| && stations[i].id == selected.value;
        assert stations[1..][i - 1].id == selected.value;
      }
    }
  }

  /** `stationsReducer`: one exhaustive match; every case builds a new
      aggregate from the old one, and an unrecognized action returns the
      state as it is. */
  function StationsReducer(state: StationsState, action: StationsAction): StationsState {
    match action
    case SetLoading =>
      state.(isLoading := true, error := None)
    case SetStations(payload) =>
      state.(stations := payload, filteredStations := payload, isLoading := false, error := None)
    case SetError(message) =>
      state.(error := Some(message), isLoading := false)
    case SetFilter(filter) =>
      var filtered := FilterStationsByCity(state.stations, filter);
      var selectedStillVisible := SomeHasId(filtered, state.selectedStationId);
      state.(
        cityFilter := filter,
        filteredStations := filtered,
        selectedStationId := if selectedStillVisible then state.selectedStationId else None)
    case SelectStation(id) =>
      state.(selectedStationId := id)
    case ClearSelection =>
      state.(selectedStationId := None)
    case Unrecognized =>
      state
  }

  // ---------------------------------------------------------------------
  // What each action changes
  // ---------------------------------------------------------------------

  lemma SetLoadingEffect(s: StationsState)
    ensures var r := StationsReducer(s, SetLoading);
      && r.isLoading && r.error == None
      && r.stations == s.stations && r.filteredStations == s.filteredStations
      && r.cityFilter == s.cityFilter && r.selectedStationId == s.selectedStationId
  {
  }

  lemma SetStationsEffect(s: StationsState, payload: seq<Station>)
    ensures var r := StationsReducer(s, SetStations(payload));
      && r.stations == payload && r.filteredStations == payload
      && !r.isLoading && r.error == None
      && r.cityFilter == s.cityFilter && r.selectedStationId == s.selectedStationId
  {
  }

  lemma SetErrorEffect(s: StationsState, message: string)
    ensures var r := StationsReducer(s, SetError(message));
      && r.error == Some(message) && !r.isLoading
      && r.stations == s.stations && r.filteredStations == s.filteredStations
      && r.cityFilter == s.cityFilter && r.selectedStationId == s.selectedStationId
  {
  }

  /** A filter change stores the raw text, recomputes the visible list
      from all stations, and clears the selection exactly when no visible
      station carries the selected id; afterwards any selection is
      visible. */
  lemma SetFilterEffect(s: StationsState, filter: string)
    ensures var r := StationsReducer(s, SetFilter(filter));
      && r.cityFilter == filter
      && r.filteredStations == FilterStationsByCity(s.stations, filter)
      && r.stations == s.stations && r.isLoading == s.isLoading && r.error == s.error
      && (s.selectedStationId.Some? ==>
            (r.selectedStationId == None <==> !ShowsId(r.filteredStations, s.selectedStationId.value)))
      && (r.selectedStationId == None || r.selectedStationId == s.selectedStationId)
      && (r.selectedStationId.Some? ==> ShowsId(r.filteredStations, r.selectedStationId.value))
  {
    SomeHasIdIff(FilterStationsByCity(s.stations, filter), s.selectedStationId);
  }

  lemma SelectionEffect(s: StationsState, id: Option<int>)
    ensures var r := StationsReducer(s, SelectStation(id));
      && r.selectedStationId == id
      && r.stations == s.stations && r.filteredStations == s.filteredStations
      && r.cityFilter == s.cityFilter && r.isLoading == s.isLoading && r.error == s.error
    ensures var r := StationsReducer(s, ClearSelection);
      && r.selectedStationId == None
      && r.stations == s.stations && r.filteredStations == s.filteredStations
      && r.cityFilter == s.cityFilter && r.isLoading == s.isLoading && r.error == s.error
  {
  }

  lemma UnrecognizedIsNoOp(s: StationsState)
    ensures StationsReducer(s, Unrecognized) == s
  {
  }

  // ---------------------------------------------------------------------
  // The derived filtered view
  // ---------------------------------------------------------------------

  /** The visible list is what the current filter makes of all stations. */
  predicate FilterConsistent(s: StationsState) {
    s.filteredStations == FilterStationsByCity(s.stations, s.cityFilter)
  }

  lemma InitialStateFilterConsistent()
    ensures FilterConsistent(InitialState)
  {
  }

  /** Every action except `SetStations` keeps the visible list consistent
      with the filter. */
  lemma ReducerKeepsFilterConsistent(s: StationsState, action: StationsAction)
    requires FilterConsistent(s) && !action.SetStations?
    ensures FilterConsistent(StationsReducer(s, action))
  {
  }

  /** `SetStations` assigns the payload to both lists without re-applying
      the filter: whatever the payload, the visible list stays consistent
      exactly when the filter is blank. */
  lemma SetStationsConsistencyIff(s: StationsState)
    ensures (forall payload :: FilterConsistent(StationsReducer(s, SetStations(payload))))
        <==> NormalizeFilter(s.cityFilter) == []
  {
    var nf := NormalizeFilter(s.cityFilter);
    if nf != [] {
      var hidden := Station(0, UnknownStationName, CityAvoiding(nf), 0.0, 0.0);
      assert KeepMatching([hidden], nf) == [];
      assert !FilterConsistent(StationsReducer(s, SetStations([hidden])));
    }
  }

  // ---------------------------------------------------------------------
  // Loading flag and error
  // ---------------------------------------------------------------------

  /** A state is never loading and failed at once. */
  predicate LoadingExcludesError(s: StationsState) {
    !(s.isLoading && s.error.Some?)
  }

  // ---------------------------------------------------------------------
  // Invariants of every reachable state
  // ---------------------------------------------------------------------

  /** What holds of every state the reducer can reach from the initial one:
      loading and error exclude each other, and the visible list is the
      full list with some stations dropped and the order kept. */
  ghost predicate ReachableInvariant(s: StationsState) {
    LoadingExcludesError(s) && IsSubsequence(s.filteredStations, s.stations)
  }

  lemma InitialStateReachable()
    ensures ReachableInvariant(InitialState)
    ensures InitialState.stations == [] && InitialState.filteredStations == []
    ensures InitialState.cityFilter == "" && InitialState.selectedStationId == None
    ensures InitialState.isLoading && InitialState.error == None
  {
  }

  lemma ReducerKeepsReachable(s: StationsState, action: StationsAction)
    requires ReachableInvariant(s)
    ensures ReachableInvariant(StationsReducer(s, action))
  {
    match action
    case SetStations(payload) =>
      SubsequenceReflexive(payload);
    case SetFilter(filter) =>
      FilterIsSubsequence(s.stations, filter);
    case _ =>
  }

  /** Dispatching `actions` in order. */
  function ReduceAll(s: StationsState, actions: seq<StationsAction>): StationsState
    decreases |actions|
  {
    if actions == [] then s else ReduceAll(StationsReducer(s, actions[0]), actions[1..])
  }

  lemma {:induction false} ReduceAllKeepsReachable(s: StationsState, actions: seq<StationsAction>)
    requires ReachableInvariant(s)
    ensures ReachableInvariant(ReduceAll(s, actions))
    decreases |actions|
  {
    if actions != [] {
      ReducerKeepsReachable(s, actions[0]);
      ReduceAllKeepsReachable(StationsReducer(s, actions[0]), actions[1..]);
    }
  }

  /** Every state reached from the initial one by any sequence of actions
      satisfies the invariants. */
  lemma EveryReachableState(actions: seq<StationsAction>)
    ensures ReachableInvariant(ReduceAll(InitialState, actions))
  {
    InitialStateReachable();
    ReduceAllKeepsReachable(InitialState, actions);
  }

  /** The selection is visible: a selected id belongs to a visible station. */
  ghost predicate SelectionVisible(s: StationsState) {
    s.selectedStationId.None? || ShowsId(s.filteredStations, s.selectedStationId.value)
  }

  /** Selecting performs no visibility check: selecting an id that no
      visible station carries leaves the selection invisible. */
  lemma SelectStationSkipsVisibilityCheck(s: StationsState, id: int)
    requires !ShowsId(s.filteredStations, id)
    ensures !SelectionVisible(StationsReducer(s, SelectStation(Some(id))))
  {
  }

  /** Actions other than `SetStations` and `SelectStation` keep a visible
      selection visible. */
  lemma ReducerKeepsSelectionVisible(s: StationsState, action: StationsAction)
    requires SelectionVisible(s) && !action.SetStations? && !action.SelectStation?
    ensures SelectionVisible(StationsReducer(s, action))
  {
    if action.SetFilter? {
      SetFilterEffect(s, action.filter);
    }
  }

  // ---------------------------------------------------------------------
  // Loading orchestration
  // ---------------------------------------------------------------------

  const UnknownErrorMessage := "Unknown error"

  /** `err instanceof Error ? err.message : "Unknown error"`. */
  function ErrorMessage(thrown: Thrown): string {
    match thrown
    case ErrorObject(message) => message
    case OtherValue => UnknownErrorMessage
  }

  /** The one action `loadStations` dispatches once the fetch has settled. */
  function LoadCompletion(outcome: FetchOutcome): (action: StationsAction)
    ensures action.SetStations? <==> FetchStations(outcome).Success?
    ensures action.SetStations? ==> action.stations == FetchStations(outcome).value
    ensures action.SetError? <==> FetchStations(outcome).Failure?
    ensures action.SetError? ==> action.message == ErrorMessage(FetchStations(outcome).error)
  {
    match FetchStations(outcome)
    case Success(stations) => SetStations(stations)
    case Failure(thrown) => SetError(ErrorMessage(thrown))
  }

  /** A whole load: the flag is down afterwards, filter and selection are
      untouched, and either both lists hold the normalized stations with
      no error, or they keep their old contents and the error holds the
      failure's message. */
  lemma LoadEffect(s: StationsState, outcome: FetchOutcome)
    ensures var r := StationsReducer(StationsReducer(s, SetLoading), LoadCompletion(outcome));
      && !r.isLoading
      && r.cityFilter == s.cityFilter && r.selectedStationId == s.selectedStationId
      && (FetchStations(outcome).Success? ==>
            r.stations == FetchStations(outcome).value && r.filteredStations == r.stations
            && r.error == None)
      && (FetchStations(outcome).Failure? ==>
            r.stations == s.stations && r.filteredStations == s.filteredStations
            && r.error == Some(ErrorMessage(FetchStations(outcome).error)))
  {
  }

  /** A 500 response leaves the status in the error and the stations as they were. */
  lemma LoadServerError(s: StationsState, body: Body)
    ensures var r := StationsReducer(StationsReducer(s, SetLoading), LoadCompletion(Responded(false, 500, body)));
      && r.error == Some("Failed to fetch stations: 500") && !r.isLoading && r.stations == s.stations
  {
    assert NatToDecimal(500) == "500";
    assert FetchFailedPrefix + IntToDecimal(500) == "Failed to fetch stations: 500";
  }

  /** A body that is not an array yields the format error. */
  lemma LoadNonArrayBody(s: StationsState, status: int)
    ensures var r := StationsReducer(StationsReducer(s, SetLoading), LoadCompletion(Responded(true, status, JsonOther)));
      && r.error == Some("Invalid data format: expected array") && !r.isLoading
  {
  }

  /** A rejection with something other than an `Error` is reported as
      "Unknown error". */
  lemma LoadNonErrorRejection(s: StationsState)
    ensures var r := StationsReducer(StationsReducer(s, SetLoading), LoadCompletion(NetworkRejected(OtherValue)));
      && r.error == Some("Unknown error") && !r.isLoading
  {
  }

  // ---------------------------------------------------------------------
  // The provider
  // ---------------------------------------------------------------------

  /** `StationsProvider`: owns the state `useReducer` holds and exposes the
      four actions. `dispatched` records every action handed to the
      reducer, in order. */
  class StationsProvider {
    var state: StationsState
    ghost var dispatched: seq<StationsAction>

    ghost predicate Valid()
      reads this
    {
      ReachableInvariant(state) && state == ReduceAll(InitialState, dispatched)
    }

    constructor ()
      ensures Valid()
      ensures state == InitialState && dispatched == []
    {
      state := InitialState;
      dispatched := [];
      InitialStateReachable();
    }

    /** `dispatch`: the reducer replaces the whole state. */
    method Dispatch(action: StationsAction)
      requires Valid()
      modifies this
      ensures Valid()
      ensures state == StationsReducer(old(state), action)
      ensures dispatched == old(dispatched) + [action]
    {
      ReducerKeepsReachable(state, action);
      ReduceAllSnoc(InitialState, dispatched, action);
      state := StationsReducer(state, action);
      dispatched := dispatched + [action];
    }

    /** `loadStations`, with the settled fetch passed in: `SetLoading`
        first, then exactly one completion action. */
    method LoadStations(outcome: FetchOutcome)
      requires Valid()
      modifies this
      ensures Valid()
      ensures dispatched == old(dispatched) + [SetLoading, LoadCompletion(outcome)]
      ensures state == StationsReducer(StationsReducer(old(state), SetLoading), LoadCompletion(outcome))
      ensures !state.isLoading
      ensures state.cityFilter == old(state.cityFilter)
      ensures state.selectedStationId == old(state.selectedStationId)
      ensures FetchStations(outcome).Success? ==>
        state.stations == FetchStations(outcome).value && state.filteredStations == state.stations
        && state.error == None
      ensures FetchStations(outcome).Failure? ==>
        state.stations == old(state.stations) && state.filteredStations == old(state.filteredStations)
        && state.error == Some(ErrorMessage(FetchStations(outcome).error))
    {
      Dispatch(SetLoading);
      var result := FetchStations(outcome);
      match result {
        case Success(stations) =>
          Dispatch(SetStations(stations));
        case Failure(thrown) =>
          var message := ErrorMessage(thrown);
          Dispatch(SetError(message));
      }
      assert dispatched == old(dispatched) + [SetLoading, LoadCompletion(outcome)];
    }

    /** `setFilter`. */
    method SetFilter(filter: string)
      requires Valid()
      modifies this
      ensures Valid()
      ensures dispatched == old(dispatched) + [StationsAction.SetFilter(filter)]
      ensures state == StationsReducer(old(state), StationsAction.SetFilter(filter))
      ensures state.cityFilter == filter
      ensures state.filteredStations == FilterStationsByCity(state.stations, filter)
      ensures state.stations == old(state.stations)
      ensures SelectionVisible(state)
    {
      SetFilterEffect(state, filter);
      Dispatch(StationsAction.SetFilter(filter));
    }

    /** `selectStation`: a null id clears the selection. */
    method SelectStation(id: Option<int>)
      requires Valid()
      modifies this
      ensures Valid()
      ensures dispatched == old(dispatched) + [StationsAction.SelectStation(id)]
      ensures state == old(state).(selectedStationId := id)
    {
      Dispatch(StationsAction.SelectStation(id));
    }

    /** `clearSelection`. */
    method ClearSelection()
      requires Valid()
      modifies this
      ensures Valid()
      ensures dispatched == old(dispatched) + [StationsAction.ClearSelection]
      ensures state == old(state).(selectedStationId := None)
    {
      Dispatch(StationsAction.ClearSelection);
    }
  }

  lemma {:induction false} ReduceAllSnoc(s: StationsState, actions: seq<StationsAction>, action: StationsAction)
    ensures ReduceAll(s, actions + [action]) == StationsReducer(ReduceAll(s, actions), action)
    decreases |actions|
  {
    if actions == [] {
      assert actions + [action] == [action];
    } else {
      assert (actions + [action])[1..] == actions[1..] + [action];
      ReduceAllSnoc(StationsReducer(s, actions[0]), actions[1..], action);
    }
  }
}
