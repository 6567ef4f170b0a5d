# Sports odds client core, modelled in Dafny

This project models the client-side state core of a single-page sports odds
application. The model covers:

- the matches store: its state, its reducers, and its reactions to the three
  asynchronous operations (initial load, update fetch, full refresh);
- the bodies of those operations;
- the remote fetcher: one request with a timeout, a bounded retry loop with
  linear backoff, the check that the body is an array, lookup by id, and the
  health probe;
- normalization and validation of raw events, with simulated odds changes;
- the comparison of fetched odds with stored odds;
- the auto-update scheduler;
- the page arithmetic of the match list and of its pagination controls;
- the splitting of a match's time string;
- the inline "click to nudge the odds" interaction.

Modules:

- `Wrappers` holds `Option` and `Result`.
- `JsValues` models the JavaScript values the code inspects: truthiness, `||`,
  own-property lookup, `parseInt`, `parseFloat`, and `toString` of numbers.
- `Seqs` holds `filter` and a filter-map.
- `Odds` holds outcomes, trends and the match record.
- `DataUtils` models `src/utils/dataUtils.js`.
- `ApiService` models `src/services/apiService.js`.
- `MatchUpdates` holds the pure functions on the match list that the store's
  reducers are specified by: apply a directive, reset trends, the capped error
  log, and the odds comparison.
- `MatchesSlice` models `src/store/matchesSlice.js` without its interval
  functions. The store is the class `MatchesStore`, whose fields the reducers
  update in place. Every reducer states the whole new state as
  `State() == old(State()).(…)`, so "nothing else changes" is part of each
  contract.
- `AutoUpdates` models `startAutoUpdates` and `stopAutoUpdates`. The
  module-level interval handle, the runtime's running intervals, and the
  pending two-second trend resets are the fields of the class `Scheduler`.
- `Paging` models `MatchList.js` and `Pagination.js`.
- `MatchTime` models `MatchTime.js`.
- `OddsSection` models `OddsSection.js`.

Values from outside the model are parameters:

- The network: the outcome of the k-th attempt of a request is `attempts[k]`,
  and every `sleep` is recorded in a returned list of delays instead of being
  waited for.
- Every `Math.random()` result is a parameter in [0, 1). For
  `generateMockUpdates`, these are the three draws per match.
- The current time is `now`. The locale-dependent date formatter is the
  function parameter `formatEventTime`.

Odds are exact reals. `Math.round(x * 100) / 100` is modelled as rounding to
the nearest hundredth, with halves rounded up. Where the code computes with
doubles, the model's results are those of exact arithmetic (see "## Left out").

Where the code and the project's own description of it differ, the model
follows the code:

- `makeApiRequest` makes up to four attempts (one plus `RETRY_ATTEMPTS` = 3
  retries), not three.
- The sleep after attempt k is `1000 × (k + 1)` ms.
- A failed update fetch sets `error` only. It adds nothing to `errorHistory`.
- On exact values, the update comparison emits a directive when a price moves
  by strictly more than 0.01, while `calculateTrend` already counts a move of
  exactly 0.01. With doubles, a move of one hundredth is rarely exactly 0.01,
  so the two differ on fewer moves in the code than in the model.

## Model

| member | source | states |
|---|---|---|
| Odds.EveryOutcomeListed | src/utils/dataUtils.js:64 | the list home, draw, away names every outcome |
| Odds.Round2 | src/utils/dataUtils.js:12 | the result is a whole number of hundredths within half a hundredth of x (halves go up) |
| Odds.AtLeastMinOdds | src/utils/dataUtils.js:12 | `Math.max(1.01, x)`: x itself when x is at least 1.01, and 1.01 below that; rounding to hundredths is kept |
| JsValues.Or | src/utils/dataUtils.js:155-164 | `a \|\| b`: a when a is truthy, b otherwise |
| JsValues.Field | src/utils/dataUtils.js:153-164 | an owned key reads as its value; a key the value does not own reads as undefined |
| JsValues.NatText | src/components/Pagination.js:23 | `n.toString()` is a non-empty string of digits |
| JsValues.NatTextRoundTrip | src/components/Pagination.js:61 | the digits of `n.toString()` read back as n |
| JsValues.ParseIntOfDigits | src/components/Pagination.js:61 | `parseInt` (`ParseInt`, the value of the leading digits) of a digit string is NaN exactly for the empty string and otherwise its value |
| JsValues.ParseIntOfNatText | src/components/Pagination.js:61 | `parseInt(n.toString())` is n |
| JsValues.ParseFloat | src/utils/dataUtils.js:226 | `parseFloat` of a number is that number; of a string, `ParseDecimal` (leading white space and line terminators skipped, then sign, digits, point, digits and exponent); undefined, null, booleans and plain objects are NaN; an array goes through its string form |
| JsValues.ParseDecimalOfNatText | src/utils/dataUtils.js:226 | `parseFloat` of a decimal integer text is its value |
| Seqs.Filter | src/store/matchesSlice.js:503 | keeps exactly the elements satisfying the predicate, never more than the input |
| Seqs.FilterIsSubsequence | src/utils/dataUtils.js:241 | a filter keeps its elements in their original order |
| Seqs.FilterPartition | src/utils/dataUtils.js:243-246 | the kept and the dropped elements together are as many as the input |
| Seqs.CollectResults | src/utils/dataUtils.js:182-194 | the loop that pushes each element's result and skips the ones that fail collects exactly the skip-on-failure map of the input |
| Seqs.FilterMapIndices | src/utils/dataUtils.js:182-194 | every result of a skip-on-failure map comes from an input position, positions strictly increasing |
| DataUtils.CalculateTrend | src/utils/dataUtils.js:21-27 | neutral iff the change is strictly under 0.01 in size; up iff it rose by at least 0.01; down iff it fell by at least 0.01 |
| DataUtils.SimulateOddsChange | src/utils/dataUtils.js:9-13 | result at least 1.01, in hundredths, and within half a hundredth of the scaled odds (ties round up) unless clamped; the clamp to 1.01 fires only for scaled odds under 1.015, and always for scaled odds under 1.005 |
| DataUtils.ValidateMatchData | src/utils/dataUtils.js:34-54 | true iff an object owns id, homeTeam, awayTeam and an object odds whose home, draw and away are positive numbers |
| DataUtils.ValidateApiEvent | src/utils/dataUtils.js:207-231 | true iff an object has non-null id, homeTeam, awayTeam, odds, and odds is an object whose homeWin, draw, awayWin parse as positive floats |
| DataUtils.FilterValidApiEvents | src/utils/dataUtils.js:238-250 | [] for a non-array; otherwise exactly the valid events in order, dropping as many as are invalid |
| DataUtils.TransformOdds | src/utils/dataUtils.js:135-145 | for an object, each of home/draw/away (`ApiOddsKey`: homeWin, draw, awayWin) is the parsed price when it is a non-zero number and 1.0 for NaN or 0 (`OddsOrOne`); a non-object gives 1.0 for all three |
| DataUtils.TransformApiEventToMatch | src/utils/dataUtils.js:108-167 | throws "Invalid API event data" iff the event is not an object; otherwise (`MatchOf`) the id, the formatted date, the transformed odds and neutral trends; each team its own value when truthy and "Unknown Team" otherwise; the league "category / league" (`FormatLeague`) with "Sports" and "Unknown League" for falsy parts; betCount or 0; isHot or false; a valid event's prices are its parsed positive odds |
| DataUtils.TransformApiEventsToMatches | src/utils/dataUtils.js:174-200 | [] for a non-array; otherwise the transformed events in order, skipping the ones that throw |
| DataUtils.NormalizeSkipsOnlyNonObjects | src/utils/dataUtils.js:182-194 | exactly the non-object events are skipped |
| DataUtils.ValidEventsAllNormalize | src/utils/dataUtils.js:108-111 | no validated event is lost in normalization |
| DataUtils.OutcomeOfDraw | src/utils/dataUtils.js:68 | the outcome is `oddsTypes[Math.floor(random * 3)]` |
| DataUtils.GenerateMockUpdates | src/utils/dataUtils.js:62-83 | the directives are those of the selected matches, one per selected match, in input order |
| DataUtils.MockUpdatesShape | src/utils/dataUtils.js:66-79 | every directive names an input match, has odds of at least 1.01 in hundredths, and carries calculateTrend of its change |
| ApiService.FetchWithTimeout | src/services/apiService.js:38-60 | an aborted fetch becomes ApiError("Request timeout", 408); only an answered fetch succeeds |
| ApiService.AttemptResult | src/services/apiService.js:77-88 | a failed fetch passes its error on; a non-2xx answer is an ApiError carrying its status; a 2xx answer succeeds with the JSON body's data, or fails with the parse error when the body is not JSON; only a 2xx answer succeeds |
| ApiService.StopIndexCharacterized | src/services/apiService.js:76-105 | the loop stops at the first success or client error, or at the last allowed attempt; every earlier attempt was retryable |
| ApiService.StopFromCharacterized | src/services/apiService.js:76-105 | the same, scanning from attempt k |
| ApiService.Backoff | src/services/apiService.js:100 | one sleep per retried attempt |
| ApiService.MakeApiRequest | src/services/apiService.js:69-108 | the number of attempts, the result of the last one, and the sleeps in between are those the retry rule dictates; a negative budget throws undefined |
| ApiService.AtMostFourAttempts | src/services/apiService.js:76 | with the default budget at most four attempts are made |
| ApiService.ClientErrorIsNotRetried | src/services/apiService.js:92-94 | a 4xx other than 408 (`IsClientError`) ends the loop on that attempt, with no further sleep |
| ApiService.TimeoutIsRetried | src/services/apiService.js:55-57 | a timeout is ApiError 408, which the loop retries |
| ApiService.TwoTimeoutsThenSuccess | src/services/apiService.js:96-100 | two timeouts then a 200 answer yield its data on the third attempt after sleeping 1000 and 2000 ms |
| ApiService.EventsOf | src/services/apiService.js:119-136 | success iff the data is an array; every failure is an ApiError: an ApiError passes through, a non-array body gives "Invalid API response: expected array of events" and any other error "Failed to fetch sports events: " + its message, both with a null status |
| ApiService.FetchSportsEvents | src/services/apiService.js:114-138 | the default-budget request followed by the array check and error wrapping |
| ApiService.SchemaErrorIsNotRetried | src/services/apiService.js:117-121 | a 2xx non-array body fails after one attempt with the schema ApiError |
| ApiService.FindEvent | src/services/apiService.js:148 | the scan stops at the first element that is null or undefined (a TypeError) or has the id (that element is found); when every element is readable and has another id, nothing is found, and only then |
| ApiService.ReadableEventsNeverThrow | src/services/apiService.js:148 | a list without null or undefined elements never makes the lookup throw |
| ApiService.FetchEventById | src/services/apiService.js:145-159 | fetch errors and the lookup's TypeError pass through; a found truthy event is the result; a missing or falsy one is ApiError 404 (`NotFound`), in particular when no event has the id; a result has the id |
| ApiService.CheckApiHealthAsWritten | src/services/apiService.js:165-173 | the probe as written never reports healthy |
| ApiService.HealthyEndpointReportedDown | src/services/apiService.js:165-173 | an endpoint answering 200 every time is still probed four times, sleeping 1000, 2000, 3000 ms |
| ApiService.CheckApiHealth | src/services/apiService.js:165-173 | corrected probe: healthy iff the attempt ending the loop got a 2xx answer |
| ApiService.FirstOkAnswerIsHealthy | src/services/apiService.js:165-173 | corrected probe: a first 2xx answer ends the probe after one attempt |
| MatchUpdates.FindMatch | src/store/matchesSlice.js:201 | the first match with the id, or none when no match has it |
| MatchUpdates.SameEventsTransitive | src/store/matchesSlice.js:218-230 | changing only odds and trends, twice, still changes only odds and trends |
| MatchUpdates.FindMatchSameEvents | src/store/matchesSlice.js:221 | changing odds and trends does not change which match an id finds |
| MatchUpdates.ApplyDirective | src/store/matchesSlice.js:220-227 | an unknown id changes nothing; otherwise only the found match's price for that outcome changes, and its trend too exactly when one is given |
| MatchUpdates.SetTrend | src/store/matchesSlice.js:209-215 | an unknown id changes nothing; otherwise only the found match's trend for that outcome changes |
| MatchUpdates.ApplyBatch | src/store/matchesSlice.js:218-230 | a batch changes only odds and trends, never ids, order or count |
| MatchUpdates.ApplyBatchIgnoresUnknownIds | src/store/matchesSlice.js:221-222 | a batch naming no stored match changes nothing |
| MatchUpdates.ApplyBatchLastWriteWins | src/store/matchesSlice.js:220-227 | each price after a batch is the last one the batch wrote for it, or the old one |
| MatchUpdates.ResetAll | src/store/matchesSlice.js:248-252 | every trend becomes neutral, prices and everything else kept |
| MatchUpdates.PushCapped | src/store/matchesSlice.js:290-295 | the new entry is first, the older ones follow in order, at most ten kept |
| MatchUpdates.PushAllKeepsNewest | src/store/matchesSlice.js:367-370 | after any number of pushes the log is the newest ten entries, newest first |
| MatchUpdates.OddsChangeEmits | src/store/matchesSlice.js:105-118 | one outcome emits a directive iff its price moved by more than 0.01, with the new price and its direction |
| MatchUpdates.OddsChangesCharacterized | src/store/matchesSlice.js:105-119 | over a list of outcomes, the emitted directives are exactly those of its outcomes |
| MatchUpdates.MatchChangesCharacterized | src/store/matchesSlice.js:99-120 | a fetched match emits exactly the directives of its three outcomes against the stored match with its id |
| MatchUpdates.DiffCharacterized | src/store/matchesSlice.js:97-121 | a directive is in the comparison (`Diff`) iff some fetched match and outcome emit it |
| MatchUpdates.UnchangedMatchesEmitNothing | src/store/matchesSlice.js:109 | comparing a list with distinct ids against itself emits nothing |
| MatchesSlice.PayloadOr | src/store/matchesSlice.js:394 | `action.payload \|\| fallback`: a non-empty message is kept, and a missing or empty one gives the fallback |
| MatchesSlice.MatchesStore.constructor | src/store/matchesSlice.js:172-192 | the store starts in the initial state |
| MatchesSlice.MatchesStore.Apply | src/store/matchesSlice.js:220-227 | only the matches change, as ApplyDirective says |
| MatchesSlice.MatchesStore.UpdateOdds | src/store/matchesSlice.js:199-206 | a stored id gets the new price and lastUpdated; an unknown id changes nothing |
| MatchesSlice.MatchesStore.UpdateTrend | src/store/matchesSlice.js:209-215 | only that match's trend changes; nothing for an unknown id |
| MatchesSlice.MatchesStore.ApplyAll | src/store/matchesSlice.js:220-228 | only the matches change, to ApplyBatch of the directives |
| MatchesSlice.MatchesStore.BatchUpdateOdds | src/store/matchesSlice.js:218-230 | the matches become ApplyBatch of the updates and lastUpdated is set |
| MatchesSlice.MatchesStore.ToggleAutoUpdate | src/store/matchesSlice.js:233-235 | the flag flips, nothing else changes |
| MatchesSlice.MatchesStore.SetUpdateInterval | src/store/matchesSlice.js:238-240 | the interval handle is recorded |
| MatchesSlice.MatchesStore.ClearUpdateInterval | src/store/matchesSlice.js:243-245 | the interval handle is cleared |
| MatchesSlice.MatchesStore.ResetTrends | src/store/matchesSlice.js:248-252 | the matches become ResetAll of them |
| MatchesSlice.MatchesStore.ClearError | src/store/matchesSlice.js:255-257 | the error is cleared |
| MatchesSlice.MatchesStore.SetUpdateMode | src/store/matchesSlice.js:260-262 | the mode is set |
| MatchesSlice.MatchesStore.SetPollingInterval | src/store/matchesSlice.js:265-267 | the period is set |
| MatchesSlice.MatchesStore.IncrementApiCallCount | src/store/matchesSlice.js:270-273 | the count goes up by one and the call time is recorded |
| MatchesSlice.MatchesStore.ResetApiCallCount | src/store/matchesSlice.js:276-279 | the count is zero and no call time is kept |
| MatchesSlice.MatchesStore.Record | src/store/matchesSlice.js:290-297 | the entry is pushed on the capped log and its message becomes the error |
| MatchesSlice.MatchesStore.AddError | src/store/matchesSlice.js:282-298 | the entry (type defaulting to "general", details to null) is logged and becomes the error; the log stays at most ten |
| MatchesSlice.MatchesStore.ClearErrorHistory | src/store/matchesSlice.js:301-303 | the log is emptied |
| MatchesSlice.MatchesStore.SetConnectionStatus | src/store/matchesSlice.js:306-308 | the status is set |
| MatchesSlice.MatchesStore.IncrementRetryCount | src/store/matchesSlice.js:311-313 | the retry count goes up by one |
| MatchesSlice.MatchesStore.ResetRetryCount | src/store/matchesSlice.js:316-318 | the retry count is zero |
| MatchesSlice.MatchesStore.SetLoadingState | src/store/matchesSlice.js:321-326 | only initial, updates and refresh can be set; any other name changes nothing |
| MatchesSlice.MatchesStore.LoadInitialPending | src/store/matchesSlice.js:333-338 | loading, connecting, error cleared |
| MatchesSlice.MatchesStore.LoadInitialFulfilled | src/store/matchesSlice.js:339-347 | the list is replaced, connected, error cleared, retry count zero |
| MatchesSlice.MatchesStore.LoadInitialRejected | src/store/matchesSlice.js:348-374 | error status, an "api" entry logged (capped), error set, retry count up by one, list kept |
| MatchesSlice.MatchesStore.FetchUpdatesPending | src/store/matchesSlice.js:377-380 | only the error is cleared; no loading flag |
| MatchesSlice.MatchesStore.FetchUpdatesFulfilled | src/store/matchesSlice.js:381-392 | the directives are applied with their trends, lastUpdated set, error cleared |
| MatchesSlice.MatchesStore.FetchUpdatesRejected | src/store/matchesSlice.js:393-395 | only the error is set; status, retry count and log untouched |
| MatchesSlice.MatchesStore.RefreshPending | src/store/matchesSlice.js:398-401 | loading, error cleared |
| MatchesSlice.MatchesStore.RefreshFulfilled | src/store/matchesSlice.js:402-407 | the list is replaced, lastUpdated set, error cleared |
| MatchesSlice.MatchesStore.RefreshRejected | src/store/matchesSlice.js:408-411 | loading off and the error set; nothing else |
| MatchesSlice.SelectMatchById | src/store/matchesSlice.js:496-497 | the first stored match with the id, or none iff no match has it |
| MatchesSlice.SelectHotMatches | src/store/matchesSlice.js:502-503 | exactly the hot matches, in list order, leaving out exactly as many as are not hot |
| MatchesSlice.HotMatchesCount | src/store/matchesSlice.js:502-504 | `selectHotMatches` never returns more than `selectMatchesCount`, and returns as many exactly when every match is hot |
| MatchesSlice.FailInitialLoad | src/store/matchesSlice.js:332-374 | a dispatched initial load that is rejected with a message ends in the error status with that message current and logged (capped), one more retry used, the log bound kept |
| MatchesSlice.RetryBudgetScenario | src/store/matchesSlice.js:510-513 | three failed loads from a fresh store make `selectCanRetry` (retryCount < maxRetries) and `selectIsConnected` false, and log three entries newest first |
| MatchesSlice.RejectionMessage | src/store/matchesSlice.js:72-77 | ApiErrors are reported with the "API Error: " prefix, other errors by their message |
| MatchesSlice.ApiMatches | src/store/matchesSlice.js:15-42 | success iff the fetch succeeds, then one match per valid event; otherwise the prefixed message |
| MatchesSlice.LoadMatchesFromApi | src/store/matchesSlice.js:151-170 | the fetch, filter and normalize pipeline yields ApiMatches of what the fetch settles with (`FetchedEvents`) |
| MatchesSlice.JsonFileRecords | src/store/matchesSlice.js:43-67 | the network error's message when the fetch is rejected; an HTTP error message for a non-2xx file; success iff the file is answered 2xx JSON, not null or undefined, and its `matches` (absent reads as empty) is an array; then exactly the valid records in order, dropping as many as are invalid (the count the warning reports) |
| MatchesSlice.LoadInitialMatches | src/store/matchesSlice.js:11-80 | "api" and "json" load from their sources; any other source is rejected with the invalid-source message |
| MatchesSlice.CompareWithStored | src/store/matchesSlice.js:97-121 | the loop over the fetched matches builds exactly the comparison Diff |
| MatchesSlice.CompareOdds | src/store/matchesSlice.js:105-119 | the loop over the three outcomes emits exactly the moved prices, in outcome order |
| MatchesSlice.FetchMatchUpdates | src/store/matchesSlice.js:83-148 | `UpdatesFor`: the comparison when the real API is used, the store is non-empty and the fetch succeeds, simulated updates otherwise; every directive names a stored match and carries a trend |
| MatchesSlice.DiffTargetsStoredMatches | src/store/matchesSlice.js:99-117 | every compared directive names a stored match and carries a trend |
| MatchesSlice.RunFetchMatchUpdates | src/store/matchesSlice.js:377-392 | a dispatched update fetch applies its directives to the list, sets lastUpdated and clears the error |
| MatchesSlice.RunLoadInitialMatchesFromApi | src/store/matchesSlice.js:333-374 | a dispatched API load either replaces the list and connects, or keeps the list, logs and counts the failure |
| MatchesSlice.RunRefreshAllMatches | src/store/matchesSlice.js:398-411 | a dispatched refresh replaces the list on success and keeps it with the error on failure |
| AutoUpdates.PeriodOr | src/store/matchesSlice.js:446 | `pollingInterval \|\| 5000` |
| AutoUpdates.ModeOr | src/store/matchesSlice.js:447 | `updateMode \|\| "api"` |
| AutoUpdates.Scheduler.constructor | src/store/matchesSlice.js:437 | no interval is running at first |
| AutoUpdates.Scheduler.Start | src/store/matchesSlice.js:439-479 | the old interval is cleared and exactly one new one runs with the store's period and mode, its handle recorded in the store |
| AutoUpdates.Scheduler.Stop | src/store/matchesSlice.js:481-487 | no interval runs afterwards; the store is touched only if one was running |
| AutoUpdates.Scheduler.Tick | src/store/matchesSlice.js:453-473 | fires iff auto-update is on and matches exist; counts the call in "api" mode only, applies the fetched updates and schedules one trend reset |
| AutoUpdates.Scheduler.Poll | src/store/matchesSlice.js:459-466 | the call is counted (count up by one, time recorded) exactly when the real API is used; the fetched or simulated updates are applied, lastUpdated set and the error cleared; nothing else changes |
| AutoUpdates.Scheduler.FireTrendReset | src/store/matchesSlice.js:469-471 | a pending reset neutralizes every trend |
| Paging.TotalPages | src/components/MatchList.js:17 | the smallest page count whose pages hold all the items |
| Paging.Slice | src/components/MatchList.js:20 | `slice` clamps both bounds to the length |
| Paging.PageItemsAreARun | src/components/MatchList.js:18-20 | a page (`PageItems`) is the run of at most itemsPerPage items from its start index |
| Paging.PagesArePrefix | src/components/MatchList.js:18-20 | the first n pages together are the first n × itemsPerPage items |
| Paging.AllPagesGiveBackTheList | src/components/MatchList.js:16-20 | all pages in turn give back the whole list, each item once |
| Paging.ShownRangeMatchesPage | src/components/Pagination.js:85-86 | "Showing x to y of n" (`StartItem`, `EndItem`) counts exactly the items the page shows, and y never exceeds n |
| Paging.DefaultListPaging | src/components/MatchList.js:12-19 | with the default of four per page, a page holds at most four cards (the first page min(4, n)), and the controls show iff there are more than four matches |
| Paging.SeveralPagesIffOverflow | src/components/Pagination.js:31-33 | the controls show (`ControlsShown`) iff the items do not fit on one page |
| Paging.RenderList | src/components/MatchList.js:37-65 | the empty message iff no items; otherwise the current page's cards, with controls iff the items overflow one page |
| Paging.MatchListView.constructor | src/components/MatchList.js:13 | the list starts on page 1 |
| Paging.MatchListView.HandlePageChange | src/components/MatchList.js:30-34 | the requested page becomes current |
| Paging.MatchListView.ResetIfPastEnd | src/components/MatchList.js:23-27 | a page past the end goes back to 1 (unless there are no pages), leaving an existing page current |
| Paging.PaginationControl.constructor | src/components/Pagination.js:23 | the input starts as the current page's number |
| Paging.PaginationControl.SyncToPage | src/components/Pagination.js:26-28 | the input shows the current page's number |
| Paging.PaginationControl.HandlePrevious | src/components/Pagination.js:35-41 | the previous page is requested and shown unless this is page 1 |
| Paging.PaginationControl.HandleNext | src/components/Pagination.js:43-49 | the next page is requested and shown unless this is the last |
| Paging.PaginationControl.HandleInputChange | src/components/Pagination.js:51-57 | only all-digit text (possibly empty) is accepted |
| Paging.PaginationControl.HandleInputSubmit | src/components/Pagination.js:59-73 | the typed page is requested iff it exists and differs from the current one; otherwise the input resets to the current page |
| MatchTime.Split | src/components/MatchTime.js:11 | at least one piece, none containing a space |
| MatchTime.JoinSplit | src/components/MatchTime.js:11-14 | joining the split pieces with spaces gives back the string |
| MatchTime.SplitAfterPiece | src/components/MatchTime.js:11 | splitting "piece rest" gives the piece followed by the pieces of the rest |
| MatchTime.SplitJoin | src/components/MatchTime.js:11-14 | splitting a join of space-free pieces gives back the pieces |
| MatchTime.FormatTime | src/components/MatchTime.js:10-18 | with three or more pieces, a space-free time and a day/date that put back together give the string; otherwise the whole string |
| OddsSection.NudgedOdds | src/components/OddsSection.js:16-21 | the new price is at least 1.01, in hundredths, and within 0.005 of the nudged price unless clamped; the clamp to 1.01 fires only for nudged prices under 1.015, and always under 1.005 |
| OddsSection.DirectTrend | src/components/OddsSection.js:23-24 | up iff the price rose, down iff it fell, neutral iff unchanged |
| OddsSection.DirectTrendAgainstCalculateTrend | src/components/OddsSection.js:23-24 | the click's trend agrees with calculateTrend for moves of 0.01 or more, and differs for every smaller non-zero move |
| OddsSection.SimulateOddsUpdate | src/components/OddsSection.js:15-32 | a click updates the price, then the trend, of a stored match and schedules that outcome's reset; an unknown match changes nothing |
| OddsSection.FireTrendReset | src/components/OddsSection.js:29-31 | the reset sets that one outcome's trend back to neutral |
| OddsSection.NudgeChangesOneOutcome | src/components/OddsSection.js:15-28 | a click changes only the clicked outcome of the clicked match: its price and trend |

## Left out

- Network, timers and clocks: `fetch`, `AbortController`, `setTimeout` and
  `setInterval`, and `new Date().toISOString()` are not modelled. The
  normalized match record has no `lastUpdated` field: the stamp that
  `transformApiEventToMatch` sets on every match is never read by the core. The
  outcomes of attempts, the recorded delays, the scheduler's explicit state
  and the `now` parameter stand in for them. Concurrency between an
  in-flight fetch and later actions is not modelled: each dispatched
  operation runs to completion.
- The 200 ms pause of the simulated update path, `console` logging, and the
  `getApiConfig` copy of the configuration are not modelled.
- `debounce` is not modelled: it is a timer wrapper with no state of the core.
- Date formatting is not modelled. `formatEventTime` is a parameter, because
  it depends on the locale and the time zone.
- Identity: ids are compared as values. JavaScript's `===` on object-valued
  ids compares references, and that is not modelled.
- `DataUtils.CalculateTrend`: compares the move with 0.01 on exact values.
  With doubles, a one-hundredth move lands above or below 0.01 by rounding
  error (1.02 - 1.01 is above, 1.13 - 1.12 below), so the code's trend for
  such a move can be Up, Down or Neutral where the model gives Up or Down.
- `MatchUpdates.OddsChange`: a move of exactly one hundredth never emits in
  the model. With doubles, the code emits for those moves whose computed
  difference lands above 0.01 (stored 1.01, fetched 1.02 emits "up").
- `MatchUpdates.Emits`: states the same exact-value threshold as
  `OddsChange`, with the same gap.
- `Odds.Round2`: rounds the exact value x * 100. The code rounds the double
  product, so a half-hundredth such as 1.005 (stored as slightly less) rounds
  down to 1 in the code and up to 1.01 in the model. `DataUtils.SimulateOddsChange`
  and `OddsSection.NudgedOdds` inherit this.
- `JsValues.ParseFloat`: "Infinity" with or without a sign reads as NaN.
  Numbers are exact reals, so the infinities do not exist in the model.
- `JsValues.NumberText`: numbers are printed positionally with at most 17
  fractional digits. JavaScript prints the shortest decimal that reads back
  as the same double, and it uses exponent notation below 1e-6 and from
  1e21 on. This affects only the ids and league parts printed into
  messages and league names.
- `MatchesSlice.MatchesStore.FetchUpdatesFulfilled`: it requires every
  directive to carry a trend. The reducer writes the trend unconditionally,
  and a missing trend would store `undefined`, which the trend type cannot
  hold. Every directive that `fetchMatchUpdates` produces does carry one.
- Reducers take outcomes from home/draw/away only. An `oddsType` outside the
  three would add a new key to the match in the code.
- Data loaded from `/data/matches.json` is modelled up to the validated
  records (`MatchesSlice.JsonFileRecords`). Storing those raw records in the
  store is not modelled, because the store model holds normalized match
  records only.
- `Paging.TotalPages`: it requires `itemsPerPage >= 1`. The component divides
  by it, and 0 would give an infinite page count.
- `AutoUpdates.PeriodOr`: the polling interval is an integer, so only 0 is
  falsy. NaN and `null` periods are not modelled.
- The presentational components (cards, buttons, the banner) and
  `window.scrollTo` are not modelled. The pagination input's blur and Enter
  handlers only call `Paging.PaginationControl.HandleInputSubmit`.

## Findings

| source | as written | input that shows it | evidently intended | confidence | as-written member | corrected member |
|---|---|---|---|---|---|---|
| src/services/apiService.js:165-173 | the health probe sends HEAD through `makeApiRequest`, which reads every 2xx body with `response.json()` (line 87). A HEAD answer has no body, so `json()` rejects with a SyntaxError, which has no status and is retried | an endpoint that answers 200 to every request: four attempts, 6000 ms of sleeps, result `false` | the probe reports healthy when the endpoint answers 2xx, without reading a body | not executed | ApiService.CheckApiHealthAsWritten | ApiService.CheckApiHealth |
