/**
 * The matches store: its state, the reducers that update it in place, the
 * reactions to the three asynchronous operations (load, fetch updates,
 * refresh) and the bodies of those operations, and the derived views
 * (selectors). Timestamps are the `now` the caller passes in.
 */
module MatchesSlice {
  import opened Wrappers
  import opened JsValues
  import opened Seqs
  import opened Odds
  import opened DataUtils
  import opened ApiService
  import opened MatchUpdates

  datatype ConnectionStatus = Disconnected | Connecting | Connected | Errored

  /** `loadingStates`: one flag per asynchronous operation. */
  datatype LoadingStates = LoadingStates(initial: bool, updates: bool, refresh: bool)

  /** One entry of `errorHistory`; `kind` is the entry's `type`. */
  datatype ErrorEntry = ErrorEntry(message: string, timestamp: int, kind: string, details: Value)

  /** The whole store state as one value. */
  datatype StoreState = StoreState(
    matches: seq<Match>,
    loading: bool,
    error: Option<string>,
    lastUpdated: Option<int>,
    updateInterval: Option<nat>,
    isAutoUpdateEnabled: bool,
    updateMode: string,
    pollingInterval: int,
    lastApiCall: Option<int>,
    apiCallCount: nat,
    errorHistory: seq<ErrorEntry>,
    connectionStatus: ConnectionStatus,
    retryCount: nat,
    maxRetries: int,
    loadingStates: LoadingStates)

  const DefaultPollingInterval: int := 5000
  const DefaultMaxRetries: int := 3

  const InitialState: StoreState := StoreState(
    matches := [],
    loading := false,
    error := None,
    lastUpdated := None,
    updateInterval := None,
    isAutoUpdateEnabled := true,
    updateMode := "api",
    pollingInterval := DefaultPollingInterval,
    lastApiCall := None,
    apiCallCount := 0,
    errorHistory := [],
    connectionStatus := Disconnected,
    retryCount := 0,
    maxRetries := DefaultMaxRetries,
    loadingStates := LoadingStates(false, false, false))

  /** `action.payload || fallback` for a rejection that carries a message, or none (None). */
  function PayloadOr(rejection: Option<string>, fallback: string): (m: string)
    ensures rejection.Some? && rejection.value != "" ==> m == rejection.value
    ensures rejection.None? || rejection == Some("") ==> m == fallback
  {
    if rejection.Some? && rejection.value != "" then rejection.value else fallback
  }

  class MatchesStore {
    var matches: seq<Match>
    var loading: bool
    var error: Option<string>
    var lastUpdated: Option<int>
    var updateInterval: Option<nat>
    var isAutoUpdateEnabled: bool
    var updateMode: string
    var pollingInterval: int
    var lastApiCall: Option<int>
    var apiCallCount: nat
    var errorHistory: seq<ErrorEntry>
    var connectionStatus: ConnectionStatus
    var retryCount: nat
    var maxRetries: int
    var loadingStates: LoadingStates

    function State(): StoreState
      reads this
    {
      StoreState(matches, loading, error, lastUpdated, updateInterval, isAutoUpdateEnabled, updateMode,
        pollingInterval, lastApiCall, apiCallCount, errorHistory, connectionStatus, retryCount, maxRetries,
        loadingStates)
    }

    /** The error log never holds more than ten entries. */
    predicate Valid()
      reads this
    {
      |errorHistory| <= MaxErrorHistory
    }

    constructor ()
      ensures Valid()
      ensures State() == InitialState
    {
      matches := [];
      loading := false;
      error := None;
      lastUpdated := None;
      updateInterval := None;
      isAutoUpdateEnabled := true;
      updateMode := "api";
      pollingInterval := DefaultPollingInterval;
      lastApiCall := None;
      apiCallCount := 0;
      errorHistory := [];
      connectionStatus := Disconnected;
      retryCount := 0;
      maxRetries := DefaultMaxRetries;
      loadingStates := LoadingStates(false, false, false);
    }

    /** Find the match the directive names and write its price and, if given, its trend. */
    method Apply(d: Directive)
      modifies this
      ensures State() == old(State()).(matches := ApplyDirective(old(matches), d))
    {
      var found := FindMatch(matches, d.matchId);
      if found.Some? {
        var i := found.value;
        var m := matches[i];
        m := m.(odds := m.odds.With(d.oddsType, d.newOdds));
        if d.trend.Some? {
          m := m.(trends := m.trends.With(d.oddsType, d.trend.value));
        }
        matches := matches[i := m];
      }
    }

    /** `updateOdds`: a known match gets the price and the store a new `lastUpdated`; an unknown id is ignored. */
    method UpdateOdds(matchId: Value, oddsType: Outcome, newOdds: real, now: int)
      requires Valid()
      modifies this
      ensures Valid()
      ensures FindMatch(old(matches), matchId).Some? ==>
        State() == old(State()).(matches := ApplyDirective(old(matches), Directive(matchId, oddsType, newOdds, None)),
                                 lastUpdated := Some(now))
      ensures FindMatch(old(matches), matchId).None? ==> State() == old(State())
    {
      if FindMatch(matches, matchId).Some? {
        Apply(Directive(matchId, oddsType, newOdds, None));
        lastUpdated := Some(now);
      }
    }

    /** `updateTrend`: a known match gets the trend; nothing else changes. */
    method UpdateTrend(matchId: Value, oddsType: Outcome, trend: Trend)
      requires Valid()
      modifies this
      ensures Valid()
      ensures State() == old(State()).(matches := SetTrend(old(matches), matchId, oddsType, trend))
    {
      var found := FindMatch(matches, matchId);
      if found.Some? {
        var i := found.value;
        matches := matches[i := matches[i].(trends := matches[i].trends.With(oddsType, trend))];
      }
    }

    /** The directives one after the other, in payload order. */
    method ApplyAll(updates: seq<Directive>)
      modifies this
      ensures State() == old(State()).(matches := ApplyBatch(old(matches), updates))
    {
      ghost var before := State();
      for i := 0 to |updates|
        invariant State() == before.(matches := ApplyBatch(before.matches, updates[..i]))
      {
        ApplyBatchSnoc(before.matches, updates, i);
        Apply(updates[i]);
      }
      assert updates[..|updates|] == updates;
    }

    /** `batchUpdateOdds`: every directive in order, then a new `lastUpdated` even for an empty batch. */
    method BatchUpdateOdds(updates: seq<Directive>, now: int)
      requires Valid()
      modifies this
      ensures Valid()
      ensures State() == old(State()).(matches := ApplyBatch(old(matches), updates), lastUpdated := Some(now))
    {
      ApplyAll(updates);
      lastUpdated := Some(now);
    }

    /** `toggleAutoUpdate` */
    method ToggleAutoUpdate()
      requires Valid()
      modifies this
      ensures Valid()
      ensures State() == old(State()).(isAutoUpdateEnabled := !old(isAutoUpdateEnabled))
    {
      isAutoUpdateEnabled := !isAutoUpdateEnabled;
    }

    /** `setUpdateInterval` */
    method SetUpdateInterval(id: nat)
      requires Valid()
      modifies this
      ensures Valid()
      ensures State() == old(State()).(updateInterval := Some(id))
    {
      updateInterval := Some(id);
    }

    /** `clearUpdateInterval` */
    method ClearUpdateInterval()
      requires Valid()
      modifies this
      ensures Valid()
      ensures State() == old(State()).(updateInterval := None)
    {
      updateInterval := None;
    }

    /** `resetTrends`: every match's trends become neutral. */
    method ResetTrends()
      requires Valid()
      modifies this
      ensures Valid()
      ensures State() == old(State()).(matches := ResetAll(old(matches)))
    {
      var i := 0;
      while i < |matches|
        invariant 0 <= i <= |matches| == |old(matches)|
        invariant forall j :: 0 <= j < i ==> matches[j] == old(matches)[j].(trends := AllNeutral)
        invariant forall j :: i <= j < |matches| ==> matches[j] == old(matches)[j]
        invariant State() == old(State()).(matches := matches)
      {
        matches := matches[i := matches[i].(trends := AllNeutral)];
        i := i + 1;
      }
    }

    /** `clearError` */
    method ClearError()
      requires Valid()
      modifies this
      ensures Valid()
      ensures State() == old(State()).(error := None)
    {
      error := None;
    }

    /** `setUpdateMode` */
    method SetUpdateMode(mode: string)
      requires Valid()
      modifies this
      ensures Valid()
      ensures State() == old(State()).(updateMode := mode)
    {
      updateMode := mode;
    }

    /** `setPollingInterval` */
    method SetPollingInterval(ms: int)
      requires Valid()
      modifies this
      ensures Valid()
      ensures State() == old(State()).(pollingInterval := ms)
    {
      pollingInterval := ms;
    }

    /** `incrementApiCallCount`: one more call, made now. */
    method IncrementApiCallCount(now: int)
      requires Valid()
      modifies this
      ensures Valid()
      ensures State() == old(State()).(apiCallCount := old(apiCallCount) + 1, lastApiCall := Some(now))
    {
      apiCallCount := apiCallCount + 1;
      lastApiCall := Some(now);
    }

    /** `resetApiCallCount` */
    method ResetApiCallCount()
      requires Valid()
      modifies this
      ensures Valid()
      ensures State() == old(State()).(apiCallCount := 0, lastApiCall := None)
    {
      apiCallCount := 0;
      lastApiCall := None;
    }

    /** Put an entry at the head of the log, keep the ten newest, and make its message the current error. */
    method Record(entry: ErrorEntry)
      requires Valid()
      modifies this
      ensures Valid()
      ensures State() == old(State()).(errorHistory := PushCapped(old(errorHistory), entry), error := Some(entry.message))
    {
      errorHistory := [entry] + errorHistory;
      if |errorHistory| > MaxErrorHistory {
        errorHistory := errorHistory[..MaxErrorHistory];
      }
      error := Some(entry.message);
    }

    /**
     * `addError`: an empty `type` becomes "general" and missing (falsy)
     * details become null.
     */
    method AddError(message: string, kind: string, details: Value, now: int)
      requires Valid()
      modifies this
      ensures Valid()
      ensures State() == old(State()).(
        errorHistory := PushCapped(old(errorHistory),
          ErrorEntry(message, now, if kind == "" then "general" else kind, Or(details, Null))),
        error := Some(message))
    {
      Record(ErrorEntry(message, now, if kind == "" then "general" else kind, Or(details, Null)));
    }

    /** `clearErrorHistory` */
    method ClearErrorHistory()
      requires Valid()
      modifies this
      ensures Valid()
      ensures State() == old(State()).(errorHistory := [])
    {
      errorHistory := [];
    }

    /** `setConnectionStatus` */
    method SetConnectionStatus(status: ConnectionStatus)
      requires Valid()
      modifies this
      ensures Valid()
      ensures State() == old(State()).(connectionStatus := status)
    {
      connectionStatus := status;
    }

    /** `incrementRetryCount` */
    method IncrementRetryCount()
      requires Valid()
      modifies this
      ensures Valid()
      ensures State() == old(State()).(retryCount := old(retryCount) + 1)
    {
      retryCount := retryCount + 1;
    }

    /** `resetRetryCount` */
    method ResetRetryCount()
      requires Valid()
      modifies this
      ensures Valid()
      ensures State() == old(State()).(retryCount := 0)
    {
      retryCount := 0;
    }

    /** `setLoadingState`: only the three known operations have a flag; any other name is ignored. */
    method SetLoadingState(operation: string, value: bool)
      requires Valid()
      modifies this
      ensures Valid()
      ensures operation == "initial" ==> State() == old(State()).(loadingStates := old(loadingStates).(initial := value))
      ensures operation == "updates" ==> State() == old(State()).(loadingStates := old(loadingStates).(updates := value))
      ensures operation == "refresh" ==> State() == old(State()).(loadingStates := old(loadingStates).(refresh := value))
      ensures operation !in {"initial", "updates", "refresh"} ==> State() == old(State())
    {
      if operation == "initial" {
        loadingStates := loadingStates.(initial := value);
      } else if operation == "updates" {
        loadingStates := loadingStates.(updates := value);
      } else if operation == "refresh" {
        loadingStates := loadingStates.(refresh := value);
      }
    }

    // -------------------------------------------------------------------
    // Reactions to the asynchronous operations

    /** The initial load started. */
    method LoadInitialPending()
      requires Valid()
      modifies this
      ensures Valid()
      ensures State() == old(State()).(loading := true, loadingStates := old(loadingStates).(initial := true),
                                       connectionStatus := Connecting, error := None)
    {
      loading := true;
      loadingStates := loadingStates.(initial := true);
      connectionStatus := Connecting;
      error := None;
    }

    /** The initial load delivered its matches: connected, no error, retry budget restored. */
    method LoadInitialFulfilled(payload: seq<Match>, now: int)
      requires Valid()
      modifies this
      ensures Valid()
      ensures State() == old(State()).(loading := false, loadingStates := old(loadingStates).(initial := false),
                                       matches := payload, lastUpdated := Some(now), connectionStatus := Connected,
                                       error := None, retryCount := 0)
    {
      loading := false;
      loadingStates := loadingStates.(initial := false);
      matches := payload;
      lastUpdated := Some(now);
      connectionStatus := Connected;
      error := None;
      retryCount := 0;
    }

    /**
     * The initial load failed: an "api" entry is logged (its details are the
     * rejection value, or null when there is none), the message becomes the
     * current error, and one more retry is used up.
     */
    method LoadInitialRejected(rejection: Option<string>, now: int)
      requires Valid()
      modifies this
      ensures Valid()
      ensures var entry := ErrorEntry(PayloadOr(rejection, "Failed to load matches"), now, "api",
                                      if rejection.Some? then Str(rejection.value) else Null);
        State() == old(State()).(loading := false, loadingStates := old(loadingStates).(initial := false),
                                 connectionStatus := Errored, errorHistory := PushCapped(old(errorHistory), entry),
                                 error := Some(entry.message), retryCount := old(retryCount) + 1)
    {
      loading := false;
      loadingStates := loadingStates.(initial := false);
      connectionStatus := Errored;
      var message := PayloadOr(rejection, "Failed to load matches");
      var details := if rejection.Some? then Str(rejection.value) else Null;
      Record(ErrorEntry(message, now, "api", details));
      retryCount := retryCount + 1;
    }

    /** An update fetch started; the loading flags are left alone. */
    method FetchUpdatesPending()
      requires Valid()
      modifies this
      ensures Valid()
      ensures State() == old(State()).(error := None)
    {
      error := None;
    }

    /**
     * An update fetch delivered its directives: each writes its price and its
     * trend. Every directive the fetch produces carries a trend.
     */
    method FetchUpdatesFulfilled(updates: seq<Directive>, now: int)
      requires Valid()
      requires forall d <- updates :: d.trend.Some?
      modifies this
      ensures Valid()
      ensures State() == old(State()).(matches := ApplyBatch(old(matches), updates), lastUpdated := Some(now),
                                       error := None)
    {
      BatchUpdateOdds(updates, now);
      error := None;
    }

    /** An update fetch failed: only the current error changes. */
    method FetchUpdatesRejected(rejection: Option<string>)
      requires Valid()
      modifies this
      ensures Valid()
      ensures State() == old(State()).(error := Some(PayloadOr(rejection, "Failed to fetch updates")))
    {
      error := Some(PayloadOr(rejection, "Failed to fetch updates"));
    }

    /** A refresh started. */
    method RefreshPending()
      requires Valid()
      modifies this
      ensures Valid()
      ensures State() == old(State()).(loading := true, error := None)
    {
      loading := true;
      error := None;
    }

    /** A refresh delivered the new list, which replaces the old one. */
    method RefreshFulfilled(payload: seq<Match>, now: int)
      requires Valid()
      modifies this
      ensures Valid()
      ensures State() == old(State()).(loading := false, matches := payload, lastUpdated := Some(now), error := None)
    {
      loading := false;
      matches := payload;
      lastUpdated := Some(now);
      error := None;
    }

    /** A refresh failed; the old list stays. */
    method RefreshRejected(rejection: Option<string>)
      requires Valid()
      modifies this
      ensures Valid()
      ensures State() == old(State()).(loading := false, error := Some(PayloadOr(rejection, "Failed to refresh matches")))
    {
      loading := false;
      error := Some(PayloadOr(rejection, "Failed to refresh matches"));
    }
  }

  // ---------------------------------------------------------------------
  // Selectors

  /** `selectMatchById` */
  function SelectMatchById(s: StoreState, id: Value): (r: Option<Match>)
    ensures r.Some? ==> r.value in s.matches && r.value.id == id
    ensures r.Some? ==> exists i :: 0 <= i < |s.matches| && s.matches[i] == r.value && forall j :: 0 <= j < i ==> s.matches[j].id != id
    ensures r.None? <==> forall m <- s.matches :: m.id != id
  {
    match FindMatch(s.matches, id)
    case Some(i) => Some(s.matches[i])
    case None => None
  }

  predicate IsHot(m: Match) {
    Truthy(m.isHot)
  }

  /** `selectHotMatches`: the matches flagged hot, in list order, leaving out as many as are not hot. */
  function SelectHotMatches(s: StoreState): (r: seq<Match>)
    ensures IsSubsequence(r, s.matches)
    ensures forall m <- r :: Truthy(m.isHot)
    ensures forall m <- s.matches :: Truthy(m.isHot) ==> m in r
    ensures |s.matches| - |r| == |Filter(s.matches, m => !IsHot(m))|
  {
    FilterIsSubsequence(s.matches, IsHot);
    FilterPartition(s.matches, IsHot, m => !IsHot(m));
    Filter(s.matches, IsHot)
  }

  /** `selectMatchesCount` */
  function SelectMatchesCount(s: StoreState): nat {
    |s.matches|
  }

  /** There are never more hot matches than matches, and as many exactly when every match is hot. */
  lemma HotMatchesCount(s: StoreState)
    ensures |SelectHotMatches(s)| <= SelectMatchesCount(s)
    ensures |SelectHotMatches(s)| == SelectMatchesCount(s) <==> forall m <- s.matches :: IsHot(m)
  {
    var notHot := Filter(s.matches, m => !IsHot(m));
    if |SelectHotMatches(s)| == SelectMatchesCount(s) {
      assert notHot == [];
    } else {
      assert notHot != [];
      assert notHot[0] in notHot;
    }
  }

  predicate SelectIsConnected(s: StoreState) {
    s.connectionStatus == Connected
  }

  predicate SelectCanRetry(s: StoreState) {
    s.retryCount < s.maxRetries
  }

  /**
   * An initial load that is dispatched and rejected with a message: the
   * error status, the message logged and current, one more retry used.
   */
  method FailInitialLoad(store: MatchesStore, message: string, now: int)
    requires store.Valid() && message != ""
    modifies store
    ensures store.Valid()
    ensures store.connectionStatus == Errored && store.error == Some(message)
    ensures store.retryCount == old(store.retryCount) + 1 && store.maxRetries == old(store.maxRetries)
    ensures store.errorHistory == PushCapped(old(store.errorHistory), ErrorEntry(message, now, "api", Str(message)))
  {
    store.LoadInitialPending();
    store.LoadInitialRejected(Some(message), now);
  }

  /**
   * From a fresh store, three failed initial loads use up the retry budget:
   * the store reports an error connection, holds three "api" log entries,
   * newest first, and no longer allows a retry.
   */
  method RetryBudgetScenario(messages: seq<string>) returns (store: MatchesStore)
    requires |messages| == 3 && forall m <- messages :: m != ""
    ensures !SelectCanRetry(store.State()) && !SelectIsConnected(store.State())
    ensures store.State().errorHistory == [
      ErrorEntry(messages[2], 3, "api", Str(messages[2])),
      ErrorEntry(messages[1], 2, "api", Str(messages[1])),
      ErrorEntry(messages[0], 1, "api", Str(messages[0]))]
    ensures store.State().error == Some(messages[2])
  {
    store := new MatchesStore();
    var entries := seq(3, k requires 0 <= k < 3 => ErrorEntry(messages[k], k + 1, "api", Str(messages[k])));
    for k := 0 to 3
      invariant store.Valid() && store.retryCount == k && store.maxRetries == DefaultMaxRetries
      invariant k > 0 ==> store.connectionStatus == Errored && store.error == Some(messages[k - 1])
      invariant store.errorHistory == seq(k, i requires 0 <= i < k => entries[k - 1 - i])
    {
      assert messages[k] in messages;
      FailInitialLoad(store, messages[k], k + 1);
      PushOntoReversed(entries, k);
    }
  }

  /** Pushing entry k onto entries k-1, ..., 0 (newest first) gives entries k, ..., 0. */
  lemma PushOntoReversed<T>(entries: seq<T>, k: nat)
    requires k < |entries| && k < MaxErrorHistory
    ensures PushCapped(seq(k, i requires 0 <= i < k => entries[k - 1 - i]), entries[k])
         == seq(k + 1, i requires 0 <= i < k + 1 => entries[k - i])
  {
  }

  // ---------------------------------------------------------------------
  // The asynchronous operations

  /** The message an operation rejects with: ApiErrors are prefixed with "API Error: ". */
  function RejectionMessage(e: Error): (m: string)
    requires !e.NothingThrown?
    ensures e.ApiError? ==> m == "API Error: " + e.message
    ensures e.PlainError? ==> m == e.message
  {
    if e.ApiError? then "API Error: " + e.message else e.message
  }

  /** What `fetchSportsEvents` settles with, given the outcomes of its attempts. */
  function FetchedEvents(attempts: seq<Attempt>): Result<seq<Value>, Error>
    requires RetryAttempts < |attempts|
  {
    EventsOf(AttemptResult(attempts[StopIndex(attempts, RetryAttempts, true)], true))
  }

  /**
   * The payload of loading from the API: one normalized match per valid
   * event, or the fetch error's message.
   */
  function ApiMatches(fetched: Result<seq<Value>, Error>, formatEventTime: Value -> string): (r: Result<seq<Match>, string>)
    requires fetched.Failure? ==> fetched.error.ApiError?
    ensures r.Success? <==> fetched.Success?
    ensures fetched.Success? ==>
      r.value == FilterMap(FilterValidApiEvents(Arr(fetched.value)), NormalizeStep(formatEventTime))
      && |r.value| == |FilterValidApiEvents(Arr(fetched.value))|
    ensures fetched.Failure? ==> r.error == "API Error: " + fetched.error.message
  {
    match fetched
    case Success(items) =>
      var valid := FilterValidApiEvents(Arr(items));
      ValidEventsAllNormalize(Arr(items), formatEventTime);
      Success(FilterMap(valid, NormalizeStep(formatEventTime)))
    case Failure(e) => Failure(RejectionMessage(e))
  }

  /**
   * Fetch, filter and normalize: the body `refreshAllMatches` runs and the
   * "api" branch of `loadInitialMatches`.
   */
  method LoadMatchesFromApi(attempts: seq<Attempt>, formatEventTime: Value -> string) returns (payload: Result<seq<Match>, string>)
    requires RetryAttempts < |attempts|
    ensures payload == ApiMatches(FetchedEvents(attempts), formatEventTime)
  {
    var events, _, _ := FetchSportsEvents(attempts);
    if events.Failure? {
      return Failure(RejectionMessage(events.error));
    }
    var validEvents := FilterValidApiEvents(Arr(events.value));
    var matches := TransformApiEventsToMatches(Arr(validEvents), formatEventTime);
    return Success(matches);
  }

  /**
   * How `fetch("/data/matches.json")` ends: rejected by the network layer
   * (a TypeError with its message), or answered. There is no timeout on this
   * request.
   */
  datatype FileFetch = Unreachable(message: string) | Answered(response: Response)

  /**
   * The "json" branch of `loadInitialMatches`: the file's `matches` array
   * (an absent one reads as empty) filtered by `validateMatchData`; every
   * error is reported by its own message.
   */
  function JsonFileRecords(file: FileFetch): (r: Result<seq<Value>, string>)
    ensures file.Unreachable? ==> r == Failure(file.message)
    ensures file.Answered? && !IsOk(file.response.status) ==> r == Failure("HTTP error! status: " + IntText(file.response.status))
    ensures r.Success? <==>
      && file.Answered? && IsOk(file.response.status) && file.response.body.Json? && Readable(file.response.body.data)
      && Or(Field(file.response.body.data, "matches"), Arr([])).Arr?
    ensures r.Success? ==>
      var records := Or(Field(file.response.body.data, "matches"), Arr([]));
      && IsSubsequence(r.value, records.items)
      && (forall v <- r.value :: ValidateMatchData(v))
      && (forall v <- records.items :: ValidateMatchData(v) ==> v in r.value)
      && |records.items| - |r.value| == |Filter(records.items, v => !ValidateMatchData(v))|
  {
    match file
    case Unreachable(message) => Failure(message)
    case Answered(response) =>
      if !IsOk(response.status) then Failure("HTTP error! status: " + IntText(response.status))
      else
        match response.body
        case Unparseable(message) => Failure(message)
        case Json(data) =>
          if !Readable(data) then
            Failure("Cannot read properties of " + Text(data) + " (reading 'matches')")
          else
            var records := Or(Field(data, "matches"), Arr([]));
            if records.Arr? then
              FilterIsSubsequence(records.items, ValidateMatchData);
              FilterPartition(records.items, ValidateMatchData, v => !ValidateMatchData(v));
              Success(Filter(records.items, ValidateMatchData))
            else Failure("matches.filter is not a function")
  }

  /** What `loadInitialMatches` resolves with, by source. */
  datatype InitialData = FromApi(matches: seq<Match>) | FromFile(records: seq<Value>)

  /** `loadInitialMatches(source)`: the API, the bundled JSON file, or an invalid-source rejection. */
  method LoadInitialMatches(source: string, attempts: seq<Attempt>, file: FileFetch, formatEventTime: Value -> string)
    returns (payload: Result<InitialData, string>)
    requires RetryAttempts < |attempts|
    ensures source == "api" ==>
      var loaded := ApiMatches(FetchedEvents(attempts), formatEventTime);
      payload == if loaded.Success? then Success(FromApi(loaded.value)) else Failure(loaded.error)
    ensures source == "json" ==>
      var loaded := JsonFileRecords(file);
      payload == if loaded.Success? then Success(FromFile(loaded.value)) else Failure(loaded.error)
    ensures source != "api" && source != "json" ==>
      payload == Failure("Invalid data source: " + source + ". Use 'api' or 'json'.")
  {
    if source == "api" {
      var loaded := LoadMatchesFromApi(attempts, formatEventTime);
      if loaded.Failure? {
        return Failure(loaded.error);
      }
      return Success(FromApi(loaded.value));
    } else if source == "json" {
      var loaded := JsonFileRecords(file);
      if loaded.Failure? {
        return Failure(loaded.error);
      }
      return Success(FromFile(loaded.value));
    } else {
      return Failure("Invalid data source: " + source + ". Use 'api' or 'json'.");
    }
  }

  /**
   * `forEach` over the latest matches, pushing the directives of each one
   * that has a stored counterpart.
   */
  method CompareWithStored(current: seq<Match>, latest: seq<Match>) returns (updates: seq<Directive>)
    ensures updates == Diff(current, latest)
  {
    updates := [];
    for j := 0 to |latest|
      invariant updates == Diff(current, latest[..j])
    {
      var f := latest[j];
      var found := FindMatch(current, f.id);
      var changes := [];
      if found.Some? {
        changes := CompareOdds(current[found.value], f);
      }
      assert latest[..j + 1][..j] == latest[..j];
      updates := updates + changes;
    }
    assert latest[..|latest|] == latest;
  }

  /**
   * The inner `forEach` over "home", "draw" and "away": a directive for
   * every price that moved by more than 0.01.
   */
  method CompareOdds(c: Match, f: Match) returns (changes: seq<Directive>)
    ensures changes == OddsChanges(c, f, Outcomes)
  {
    changes := [];
    for k := 0 to |Outcomes|
      invariant changes == OddsChanges(c, f, Outcomes[..k])
    {
      var oddsType := Outcomes[k];
      var currentOdds, newOdds := c.odds.Get(oddsType), f.odds.Get(oddsType);
      if Abs(currentOdds - newOdds) > ChangeThreshold {
        var trend := if newOdds > currentOdds then Up else Down;
        changes := changes + [Directive(f.id, oddsType, newOdds, Some(trend))];
      }
      assert Outcomes[..k + 1][..k] == Outcomes[..k];
    }
    assert Outcomes[..|Outcomes|] == Outcomes;
  }

  /**
   * What `fetchMatchUpdates(useRealApi)` resolves with. With the real API and
   * a non-empty store it compares the fetched matches with the stored ones;
   * when that fetch fails, when the API is not used, or when the store is
   * empty, it simulates changes with probability 0.3.
   */
  function UpdatesFor(current: seq<Match>, useRealApi: bool, attempts: seq<Attempt>, draws: seq<Draws>,
                      formatEventTime: Value -> string): seq<Directive>
    requires RetryAttempts < |attempts| && |draws| == |current|
  {
    if useRealApi && |current| > 0 && FetchedEvents(attempts).Success? then
      Diff(current, FilterMap(FilterValidApiEvents(Arr(FetchedEvents(attempts).value)), NormalizeStep(formatEventTime)))
    else
      FilterMap(Zip(current, draws), MockStep(DefaultUpdateProbability))
  }

  /**
   * The body of `fetchMatchUpdates(useRealApi)`. It always resolves; every
   * directive it yields names a stored match and carries a trend.
   */
  method FetchMatchUpdates(current: seq<Match>, useRealApi: bool, attempts: seq<Attempt>, draws: seq<Draws>,
                           formatEventTime: Value -> string)
    returns (updates: seq<Directive>)
    requires RetryAttempts < |attempts| && |draws| == |current|
    ensures updates == UpdatesFor(current, useRealApi, attempts, draws, formatEventTime)
    ensures forall d <- updates :: d.trend.Some? && exists i :: 0 <= i < |current| && current[i].id == d.matchId
  {
    if useRealApi && |current| > 0 {
      var events, _, _ := FetchSportsEvents(attempts);
      if events.Success? {
        var validEvents := FilterValidApiEvents(Arr(events.value));
        var latest := TransformApiEventsToMatches(Arr(validEvents), formatEventTime);
        updates := CompareWithStored(current, latest);
        DiffTargetsStoredMatches(current, latest);
        return;
      }
    }
    updates := GenerateMockUpdates(current, DefaultUpdateProbability, draws);
    MockUpdatesShape(current, DefaultUpdateProbability, draws);
  }

  /** Every directive of the comparison names a stored match and carries a trend. */
  lemma DiffTargetsStoredMatches(current: seq<Match>, latest: seq<Match>)
    ensures forall d <- Diff(current, latest) :: d.trend.Some? && exists i :: 0 <= i < |current| && current[i].id == d.matchId
  {
    forall d <- Diff(current, latest)
      ensures d.trend.Some? && exists i :: 0 <= i < |current| && current[i].id == d.matchId
    {
      DiffCharacterized(current, latest, d);
      var f, t :| f in latest && Emits(current, f, t, d);
      var i := FindMatch(current, f.id).value;
      assert current[i].id == d.matchId;
    }
  }

  // ---------------------------------------------------------------------
  // Dispatching the operations: pending, then the body, then the outcome

  /** `dispatch(fetchMatchUpdates(useRealApi))`: the stored list as it was when dispatched is compared and updated. */
  method RunFetchMatchUpdates(store: MatchesStore, useRealApi: bool, attempts: seq<Attempt>, draws: seq<Draws>,
                              formatEventTime: Value -> string, now: int)
    returns (updates: seq<Directive>)
    requires store.Valid() && RetryAttempts < |attempts| && |draws| == |store.matches|
    modifies store
    ensures store.Valid()
    ensures updates == UpdatesFor(old(store.matches), useRealApi, attempts, draws, formatEventTime)
    ensures store.State() == old(store.State()).(matches := ApplyBatch(old(store.matches), updates),
                                                 lastUpdated := Some(now), error := None)
  {
    store.FetchUpdatesPending();
    updates := FetchMatchUpdates(store.matches, useRealApi, attempts, draws, formatEventTime);
    store.FetchUpdatesFulfilled(updates, now);
  }

  /** `dispatch(loadInitialMatches("api"))` */
  method RunLoadInitialMatchesFromApi(store: MatchesStore, attempts: seq<Attempt>, formatEventTime: Value -> string, now: int)
    requires store.Valid() && RetryAttempts < |attempts|
    modifies store
    ensures store.Valid()
    ensures var loaded := ApiMatches(FetchedEvents(attempts), formatEventTime);
      && (loaded.Success? ==> store.matches == loaded.value && store.connectionStatus == Connected && store.retryCount == 0)
      && (loaded.Failure? ==>
            && store.matches == old(store.matches) && store.connectionStatus == Errored
            && store.retryCount == old(store.retryCount) + 1 && store.error == Some(loaded.error)
            && store.errorHistory == PushCapped(old(store.errorHistory), ErrorEntry(loaded.error, now, "api", Str(loaded.error))))
    ensures !store.loading && !store.loadingStates.initial
  {
    store.LoadInitialPending();
    var payload := LoadInitialMatches("api", attempts, Unreachable(""), formatEventTime);
    if payload.Success? {
      store.LoadInitialFulfilled(payload.value.matches, now);
    } else {
      assert payload.error != "";
      store.LoadInitialRejected(Some(payload.error), now);
    }
  }

  /** `dispatch(refreshAllMatches())`: a failed refresh keeps the list it had. */
  method RunRefreshAllMatches(store: MatchesStore, attempts: seq<Attempt>, formatEventTime: Value -> string, now: int)
    requires store.Valid() && RetryAttempts < |attempts|
    modifies store
    ensures store.Valid()
    ensures var loaded := ApiMatches(FetchedEvents(attempts), formatEventTime);
      && (loaded.Success? ==> store.State() == old(store.State()).(loading := false, matches := loaded.value,
                                                                  lastUpdated := Some(now), error := None))
      && (loaded.Failure? ==> store.State() == old(store.State()).(loading := false, error := Some(loaded.error)))
  {
    store.RefreshPending();
    var payload := LoadMatchesFromApi(attempts, formatEventTime);
    if payload.Success? {
      store.RefreshFulfilled(payload.value, now);
    } else {
      assert payload.error != "";
      store.RefreshRejected(Some(payload.error));
    }
  }
}
