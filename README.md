# Train station viewer core in Dafny

This project models the logic core of a small React viewer for German
train stations. The core has two parts:

- **Station access and filtering** (`src/api/stationsApi.ts`):
  - `normalizeStation` coalesces each falsy field of a raw endpoint record to a default;
  - `fetchStations` checks the response status, checks that the body is an array, and maps the normalization over it;
  - `filterStationsByCity` keeps the stations whose lower-cased city contains the lower-cased, trimmed filter.
- **The stations state machine** (`src/context/StationsContext.tsx`):
  - the initial state;
  - the pure reducer over the six actions and its default branch;
  - the provider, which owns the state and runs a load as `SET_LOADING` followed by exactly one of `SET_STATIONS` or `SET_ERROR`.

Files:

- `types.dfy` (`StationTypes`) holds the value shapes: `Station`, the raw record, the state aggregate and the action type. It also defines `Option` and `Result`.
- `text.dfy` (`Text`) models the JavaScript string built-ins the core calls:
  - `toLowerCase`, as a code-point mapping;
  - `trim`, with the exact ECMAScript whitespace and line-terminator set;
  - `includes`, as a left-to-right scan proved equal to "occurs somewhere";
  - the decimal rendering of a number in a template literal.
- `stations_api.dfy` (`StationsApi`) models normalization, loading from an already-settled fetch outcome, and the city filter. The filter is proved sound, complete and order preserving.
- `stations_api_scenarios.dfy` (`StationsApiScenarios`) replays the filter cases of `src/__tests__/stationsApi.test.ts` on five stations whose cities are Berlin, München, Hamburg, Berlin and Frankfurt.
- `stations_context.dfy` (`StationsContext`) holds:
  - the initial state and the reducer, with one lemma per action;
  - the invariants every reachable state keeps;
  - the effect of a whole load;
  - the `StationsProvider` class. It keeps the state in a field and logs every dispatched action in a ghost field. Its methods `Dispatch`, `LoadStations`, `SetFilter`, `SelectStation` and `ClearSelection` update the state through the reducer.
- `stations_context_scenarios.dfy` (`StationsContextScenarios`) shows selecting a station and then changing the filter.

The network call is a parameter. A `FetchOutcome` is either a rejection carrying the thrown value, or a response with `ok`, `status` and a body. The body is a JSON array of raw records, some other JSON value, or a rejected `json()` promise.

One might expect `filteredStations` always to be the filter applied to `stations`. The code's `SET_STATIONS` (src/context/StationsContext.tsx:25-32) assigns the payload to both lists without re-applying the current `cityFilter`, and the model keeps that behaviour:

- `StationsContext.ReducerKeepsFilterConsistent` proves every other action keeps the two lists consistent.
- `StationsContext.SetStationsConsistencyIff` proves `SET_STATIONS` keeps them consistent for every payload exactly when the filter trims to nothing.

## Model

| member | source | states |
|---|---|---|
| Text.Lower | src/api/stationsApi.ts:41 | the model of `toLowerCase` keeps the length and lower-cases each code point on its own |
| Text.LowerIdempotent | src/api/stationsApi.ts:41 | lower-casing twice is lower-casing once |
| Text.LowerConcat | src/api/stationsApi.ts:41 | the model's code-point-wise lower-casing distributes over concatenation |
| Text.LowerKeepsAllWhitespace | src/api/stationsApi.ts:41 | a string is all whitespace after lower-casing exactly when it was before |
| Text.TrimStartSpec | src/api/stationsApi.ts:41 | the start trim yields the suffix that follows an all-whitespace prefix and does not itself start with whitespace |
| Text.TrimEndSpec | src/api/stationsApi.ts:41 | the end trim yields the prefix that precedes an all-whitespace suffix and does not itself end with whitespace |
| Text.TrimSpec | src/api/stationsApi.ts:41 | a trimmed string is empty or has non-whitespace at both ends |
| Text.TrimKeepsNonBlankEnds | src/api/stationsApi.ts:41 | a string with non-whitespace at both ends is its own trim |
| Text.TrimEmptyIff | src/api/stationsApi.ts:41 | a string trims to nothing if and only if it is all whitespace |
| Text.TrimStartSkipsWhitespace | src/api/stationsApi.ts:41 | whitespace put in front does not change the start trim |
| Text.TrimEndSkipsWhitespace | src/api/stationsApi.ts:41 | whitespace put behind does not change the end trim |
| Text.TrimStartAppend | src/api/stationsApi.ts:41 | text after a string that has non-whitespace survives the start trim unchanged |
| Text.TrimSurrounding | src/api/stationsApi.ts:41 | whitespace around a string does not change its trim |
| Text.IncludesIsSubstring | src/api/stationsApi.ts:47 | `includes` holds if and only if the needle occurs at some position of the haystack |
| Text.IncludedCharsOccur | src/api/stationsApi.ts:47 | every character of an included string occurs in the including one |
| Text.NatToDecimal | src/api/stationsApi.ts:25 | the decimal form is non-empty, all digits, and starts with `0` only for zero |
| Text.IntToDecimal | src/api/stationsApi.ts:25 | a negative status gets a minus sign before the digits of its magnitude |
| Text.DecimalRoundTrip | src/api/stationsApi.ts:25 | reading the decimal form back gives the number |
| StationsApi.NormalizeStation | src/api/stationsApi.ts:8-16 | the id is kept. A falsy name or city becomes "Unknown Station" or "Unknown City", and any other value passes through. A missing coordinate becomes 0. Name and city are never empty |
| StationsApi.NormalizeKeepsCompleteStation | src/api/stationsApi.ts:8-16 | a record carrying every field, with non-empty texts, comes through unchanged |
| StationsApi.NormalizeIdempotent | src/api/stationsApi.ts:8-16 | normalizing a normalized station changes nothing |
| StationsApi.NormalizeIdOnly | src/__tests__/stationsApi.test.ts:118-135 | a record with only an id gets every default |
| StationsApi.NormalizeAll | src/api/stationsApi.ts:34 | the map keeps the length and normalizes element i into element i |
| StationsApi.FetchStations | src/api/stationsApi.ts:21-35 | a rejection propagates its value. A non-ok response fails with "Failed to fetch stations: " and the status. A rejected body propagates its value, and a non-array body fails with "Invalid data format: expected array". Success happens exactly for an ok body that is an array of records, and gives the normalized elements in order |
| StationsApi.FetchFailureCarriesStatus | src/api/stationsApi.ts:24-26 | a non-ok failure's message is the fixed prefix followed by a decimal that reads back as the status |
| Text.Trim | src/api/stationsApi.ts:41 | models `trim`; characterised by Text.TrimStartSpec, Text.TrimEndSpec, Text.TrimSpec, Text.TrimEmptyIff and Text.TrimSurrounding |
| Text.Includes | src/api/stationsApi.ts:47 | models `includes`; characterised by Text.IncludesIsSubstring and Text.IncludedCharsOccur |
| StationsApi.NormalizeFilter | src/api/stationsApi.ts:41 | models `cityFilter.toLowerCase().trim()`; characterised by StationsApi.NormalizeFilterEmptyIff, StationsApi.FilterIgnoresSurroundingWhitespace and StationsApi.FilterIgnoresCase |
| StationsApi.KeepMatching | src/api/stationsApi.ts:47 | models `stations.filter` with the city callback; characterised by StationsApi.KeepMatchingMembership, StationsApi.KeepMatchingIsSubsequence and StationsApi.KeepMatchingAppend |
| StationsApi.FilterStationsByCity | src/api/stationsApi.ts:40-48 | models `filterStationsByCity`; characterised by StationsApi.FilterBlankIsIdentity, StationsApi.FilterMembership, StationsApi.FilterIsSubsequence, StationsApi.FilterIgnoresSurroundingWhitespace and StationsApi.FilterIgnoresCase |
| StationsApi.KeepMatchingIsSubsequence | src/api/stationsApi.ts:47 | `filter` keeps some of its input's elements in their input order |
| StationsApi.KeepMatchingMembership | src/api/stationsApi.ts:47 | a station is kept if and only if it is an input station whose lower-cased city contains the filter |
| StationsApi.FilterBlankIsIdentity | src/api/stationsApi.ts:41-45 | an empty or whitespace-only filter returns the input unchanged |
| StationsApi.NormalizeFilterEmptyIff | src/api/stationsApi.ts:41-43 | the normalized filter is empty if and only if the raw filter is all whitespace |
| StationsApi.FilterMembership | src/api/stationsApi.ts:40-48 | for a non-blank filter, soundness and completeness: a station is in the result if and only if it is an input station whose lower-cased city contains the normalized filter |
| StationsApi.FilterIsSubsequence | src/api/stationsApi.ts:40-48 | the result is an order-preserving subsequence of the input and no longer than it |
| StationsApi.FilterIgnoresSurroundingWhitespace | src/api/stationsApi.ts:41 | whitespace around the filter does not change the result |
| StationsApi.FilterIgnoresCase | src/api/stationsApi.ts:41 | a lower-cased filter gives the same result as the original |
| StationsApi.NoMatchWithoutChar | src/api/stationsApi.ts:47 | a city lacking one of the filter's characters does not match |
| StationsApi.KeepMatchingAppend | src/api/stationsApi.ts:47 | filtering a concatenation concatenates the filtered parts |
| StationsApiScenarios.FilterBerlin | src/__tests__/stationsApi.test.ts:32-36 | "Berlin" keeps exactly the two Berlin stations, in input order |
| StationsApiScenarios.FilterUpperMuenchen | src/__tests__/stationsApi.test.ts:38-42 | "MÜNCHEN" keeps exactly the München station |
| StationsApiScenarios.FilterHam | src/__tests__/stationsApi.test.ts:44-48 | the partial filter "Ham" keeps exactly the Hamburg station |
| StationsApiScenarios.FilterMuench | src/__tests__/stationsApi.test.ts:55-59 | "Münch" keeps exactly the München station |
| StationsApiScenarios.FilterPaddedBerlin | src/__tests__/stationsApi.test.ts:61-64 | "  Berlin  " gives what "Berlin" gives |
| StationsContext.InitialState | src/context/StationsContext.tsx:8-15 | models `initialState`; its field values and invariants are stated by StationsContext.InitialStateReachable and StationsContext.InitialStateFilterConsistent |
| StationsContext.SomeHasId | src/context/StationsContext.tsx:39 | models `filtered.some((s) => s.id === state.selectedStationId)`; characterised by StationsContext.SomeHasIdIff |
| StationsContext.StationsReducer | src/context/StationsContext.tsx:20-58 | models `stationsReducer`; one lemma per action: StationsContext.SetLoadingEffect, StationsContext.SetStationsEffect, StationsContext.SetErrorEffect, StationsContext.SetFilterEffect, StationsContext.SelectionEffect and StationsContext.UnrecognizedIsNoOp |
| StationsContext.ErrorMessage | src/context/StationsContext.tsx:101 | models `err instanceof Error ? err.message : "Unknown error"`; stated by StationsContext.LoadCompletion and StationsContext.LoadNonErrorRejection |
| StationsContext.SomeHasIdIff | src/context/StationsContext.tsx:39 | `some` finds the selected id if and only if a selection exists and some station carries that id |
| StationsContext.InitialStateReachable | src/context/StationsContext.tsx:8-15 | the initial state has empty lists, a blank filter, no selection, loading on and no error, and it satisfies the reachable-state invariants |
| StationsContext.SetLoadingEffect | src/context/StationsContext.tsx:22-23 | `SET_LOADING` turns loading on, clears the error and changes nothing else |
| StationsContext.SetStationsEffect | src/context/StationsContext.tsx:25-32 | `SET_STATIONS` puts the payload in both lists, turns loading off and clears the error. Filter and selection are kept |
| StationsContext.SetErrorEffect | src/context/StationsContext.tsx:34-35 | `SET_ERROR` stores the message, turns loading off and leaves lists, filter and selection alone |
| StationsContext.SetFilterEffect | src/context/StationsContext.tsx:37-46 | `SET_FILTER` stores the raw text and recomputes the visible list from all stations. It clears a selection exactly when no visible station carries its id, otherwise keeps it. Afterwards any selection is visible |
| StationsContext.SelectionEffect | src/context/StationsContext.tsx:49-53 | `SELECT_STATION` sets the selection unconditionally and `CLEAR_SELECTION` removes it. Neither touches another field |
| StationsContext.UnrecognizedIsNoOp | src/context/StationsContext.tsx:55-56 | an unrecognized action returns the state as it is |
| StationsContext.InitialStateFilterConsistent | src/context/StationsContext.tsx:8-15 | initially the visible list is the filter applied to all stations |
| StationsContext.ReducerKeepsFilterConsistent | src/context/StationsContext.tsx:20-57 | every action except `SET_STATIONS` keeps the visible list equal to the filter applied to all stations |
| StationsApi.CityAvoiding | src/api/stationsApi.ts:47 | for every non-blank filter there is a city it does not match |
| StationsContext.SetStationsConsistencyIff | src/context/StationsContext.tsx:25-32 | `SET_STATIONS` keeps the visible list consistent with the filter for every payload if and only if the filter trims to nothing |
| StationsContext.ReducerKeepsReachable | src/context/StationsContext.tsx:20-57 | every action keeps loading and error exclusive and keeps the visible list an order-preserving subsequence of all stations |
| StationsContext.ReduceAllKeepsReachable | src/context/StationsContext.tsx:93 | any sequence of dispatched actions keeps those invariants |
| StationsContext.EveryReachableState | src/context/StationsContext.tsx:93 | every state reached from the initial state satisfies those invariants |
| StationsContext.SelectStationSkipsVisibilityCheck | src/context/StationsContext.tsx:49-50 | selecting an id that no visible station carries leaves a selection that is not visible |
| StationsContext.ReducerKeepsSelectionVisible | src/context/StationsContext.tsx:37-53 | every action except `SET_STATIONS` and `SELECT_STATION` keeps a visible selection visible |
| StationsContext.LoadCompletion | src/context/StationsContext.tsx:97-103 | the completion is `SET_STATIONS` with the fetched stations exactly when the fetch succeeds. It is `SET_ERROR` with the error's message, or "Unknown error", exactly when the fetch fails |
| StationsContext.LoadEffect | src/context/StationsContext.tsx:95-104 | after a whole load, loading is off and filter and selection are kept. On success both lists hold the fetched stations and there is no error. On failure the lists are kept and the error holds the failure's message |
| StationsContext.LoadServerError | src/__tests__/stationsApi.test.ts:100-107 | a load answered with status 500 ends with the error "Failed to fetch stations: 500" and the stations kept |
| StationsContext.LoadNonArrayBody | src/__tests__/stationsApi.test.ts:109-116 | a load whose body is not an array ends with the error "Invalid data format: expected array" |
| StationsContext.LoadNonErrorRejection | src/context/StationsContext.tsx:100-102 | a rejection with a value that is not an `Error` ends with the error "Unknown error" |
| StationsContext.ReduceAllSnoc | src/context/StationsContext.tsx:93 | dispatching one more action applies the reducer once more to the state reached so far |
| StationsContext.StationsProvider.constructor | src/context/StationsContext.tsx:93 | the provider starts in the initial state with nothing dispatched |
| StationsContext.StationsProvider.Dispatch | src/context/StationsContext.tsx:93 | dispatch replaces the state with the reducer's result, logs the action and keeps the invariants |
| StationsContext.StationsProvider.LoadStations | src/context/StationsContext.tsx:95-104 | a load dispatches `SET_LOADING` and then exactly the one completion action. Loading is off afterwards, with the success or failure effect described above |
| StationsContext.StationsProvider.SetFilter | src/context/StationsContext.tsx:106-108 | dispatches `SET_FILTER`: the new state is the reducer's result, so loading and error are kept and a visible selection stays. The state then holds the text and the filtered view of the unchanged stations, and any selection is visible |
| StationsContext.StationsProvider.SelectStation | src/context/StationsContext.tsx:110-112 | dispatches `SELECT_STATION`. Only the selection changes |
| StationsContext.StationsProvider.ClearSelection | src/context/StationsContext.tsx:114-116 | dispatches `CLEAR_SELECTION`. Only the selection changes, to none |
| StationsContextScenarios.SelectThenFilterBerlin | src/context/StationsContext.tsx:37-46 | on the test stations, selecting München and then filtering on "Berlin" shows the two Berlin stations and clears the selection. A selected Berlin station stays selected |

## Left out

- Text.LowerChar: lower-cases only ASCII `A`-`Z` and the Latin-1 capitals U+00C0..U+00DE (except U+00D7). Full Unicode case mapping, including characters whose lower case is longer than one code point, is not modelled. Context-dependent mappings are not modelled either: the final-sigma rule makes `"ΑΣ".toLowerCase()` end in `ς`, while this `Lower` maps each code point alone. So Text.Lower and Text.LowerConcat hold of the model's `Lower`, not of every input to `toLowerCase`. Every filter property is stated relative to this `Lower`.
- StationsApi.NormalizeStation: a raw field is either missing/null (`None`) or a value of its declared type. The id is always present and an integer: a record without an id (which the source turns into a station whose id is `undefined`) and a non-integer numeric id cannot be represented. The `NaN` coordinate (falsy in JavaScript, so it becomes 0) and string fields holding other truthy non-string values are not modelled.
- StationsApi.FetchStations: an array body is modelled as a sequence of records. An element that is not an object is not modelled. For `null`, reading its `id` throws a `TypeError`, and `loadStations` reports that error's message. For a number, the station gets an undefined id.
- The request to the fixed endpoint URL and the JSON parsing are not modelled. Their settled result is the `FetchOutcome` parameter.
- The `await` suspension inside `loadStations` is not modelled, and neither are overlapping or concurrent loads with their last-write-wins outcome. A load runs to completion in one method call.
- StationsContext.StationsProvider.LoadStations: the `useCallback`/`useMemo` memoization and the React context object that publishes the state are not modelled.
- The reducer's `default` branch cannot be reached with the closed action type. It is modelled by an extra `Unrecognized` action that stands for any other value reaching the reducer.
- No arithmetic or range checking is done on latitude and longitude. They are `real` values passed through.
- Components, the map, `App.tsx` and `src/hooks/useStations.ts` are presentation and provider lookup, and are not part of this model.
- The test "filter is empty" (src/__tests__/stationsApi.test.ts:21-30) is covered by StationsApi.FilterBlankIsIdentity for all inputs. The test "no stations match" (src/__tests__/stationsApi.test.ts:50-53) is covered by StationsApi.FilterMembership. Neither has a separate concrete replay.
