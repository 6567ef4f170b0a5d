/**
 * The auto-update scheduler: one module-level interval handle, a periodic
 * tick that fetches updates while auto-update is on and the store holds
 * matches, and a trend reset two seconds after every such tick. The
 * runtime's intervals and pending timeouts are explicit state here.
 */
module AutoUpdates {
  import opened Wrappers
  import opened JsValues
  import opened Odds
  import opened DataUtils
  import opened ApiService
  import opened MatchUpdates
  import opened MatchesSlice

  /** What an interval was started with: its period and the update mode read at start. */
  datatype Timer = Timer(period: int, mode: string)

  /** Delay of the trend reset after a tick, in milliseconds. */
  const TrendResetDelay: int := 2000

  /** `pollingInterval || 5000` */
  function PeriodOr(pollingInterval: int): (p: int)
    ensures p != 0
    ensures pollingInterval != 0 ==> p == pollingInterval
  {
    if pollingInterval != 0 then pollingInterval else DefaultPollingInterval
  }

  /** `updateMode || "api"` */
  function ModeOr(updateMode: string): (m: string)
    ensures m != ""
    ensures updateMode != "" ==> m == updateMode
  {
    if updateMode != "" then updateMode else "api"
  }

  class Scheduler {
    /** `updateIntervalId`: the handle of the interval this module started last, if any. */
    var intervalId: Option<nat>
    /** The intervals the runtime is running, by handle. */
    var timers: map<nat, Timer>
    /** The handle the runtime gives the next interval; handles are positive. */
    var nextHandle: nat
    /** Trend resets scheduled by ticks that have not fired yet. */
    var pendingResets: nat

    /** At most one interval runs, and it is the one `updateIntervalId` names. */
    predicate Valid()
      reads this
    {
      && nextHandle >= 1
      && (forall h <- timers :: 1 <= h < nextHandle)
      && timers.Keys == (if intervalId.Some? then {intervalId.value} else {})
    }

    constructor ()
      ensures Valid()
      ensures intervalId == None && timers == map[] && pendingResets == 0
    {
      intervalId := None;
      timers := map[];
      nextHandle := 1;
      pendingResets := 0;
    }

    /**
     * `startAutoUpdates`: clears the running interval, starts one with the
     * store's period and mode, and records its handle in the store.
     */
    method Start(store: MatchesStore) returns (id: nat)
      requires Valid() && store.Valid()
      modifies this, store
      ensures Valid() && store.Valid()
      ensures id >= 1 && intervalId == Some(id)
      ensures timers == map[id := Timer(PeriodOr(old(store.pollingInterval)), ModeOr(old(store.updateMode)))]
      ensures old(intervalId).Some? ==> old(intervalId).value != id
      ensures pendingResets == old(pendingResets)
      ensures store.State() == old(store.State()).(updateInterval := Some(id))
    {
      if intervalId.Some? {
        timers := timers - {intervalId.value};
      }
      var period := PeriodOr(store.pollingInterval);
      var mode := ModeOr(store.updateMode);
      id := nextHandle;
      nextHandle := nextHandle + 1;
      timers := timers[id := Timer(period, mode)];
      intervalId := Some(id);
      store.SetUpdateInterval(id);
    }

    /** `stopAutoUpdates`: clears the running interval if there is one; otherwise does nothing. */
    method Stop(store: MatchesStore)
      requires Valid() && store.Valid()
      modifies this, store
      ensures Valid() && store.Valid()
      ensures intervalId == None && timers == map[]
      ensures pendingResets == old(pendingResets)
      ensures old(intervalId).Some? ==> store.State() == old(store.State()).(updateInterval := None)
      ensures old(intervalId).None? ==> store.State() == old(store.State())
    {
      if intervalId.Some? {
        timers := timers - {intervalId.value};
        intervalId := None;
        store.ClearUpdateInterval();
      }
    }

    /**
     * One firing of the running interval. When auto-update is on and the
     * store holds matches it counts an API call (in "api" mode only),
     * dispatches the update fetch with the real API exactly in "api" mode,
     * and schedules a trend reset; otherwise it does nothing.
     */
    method Tick(store: MatchesStore, id: nat, attempts: seq<Attempt>, draws: seq<Draws>,
                formatEventTime: Value -> string, now: int)
      returns (fired: bool, updates: seq<Directive>)
      requires Valid() && store.Valid() && id in timers
      requires RetryAttempts < |attempts| && |draws| == |store.matches|
      modifies this, store
      ensures Valid() && store.Valid()
      ensures timers == old(timers) && intervalId == old(intervalId)
      ensures fired <==> old(store.isAutoUpdateEnabled) && |old(store.matches)| > 0
      ensures !fired ==> store.State() == old(store.State()) && pendingResets == old(pendingResets) && updates == []
      ensures fired ==>
        var api := timers[id].mode == "api";
        && pendingResets == old(pendingResets) + 1
        && updates == UpdatesFor(old(store.matches), api, attempts, draws, formatEventTime)
        && store.State() == old(store.State()).(
             apiCallCount := if api then old(store.apiCallCount) + 1 else old(store.apiCallCount),
             lastApiCall := if api then Some(now) else old(store.lastApiCall),
             matches := ApplyBatch(old(store.matches), updates),
             lastUpdated := Some(now),
             error := None)
    {
      if !(store.isAutoUpdateEnabled && |store.matches| > 0) {
        return false, [];
      }
      updates := Poll(store, timers[id].mode == "api", attempts, draws, formatEventTime, now);
      pendingResets := pendingResets + 1;
      fired := true;
    }

    /**
     * The store's side of a firing: count the API call when the real API is
     * used, then dispatch the update fetch.
     */
    static method Poll(store: MatchesStore, useRealApi: bool, attempts: seq<Attempt>, draws: seq<Draws>,
                       formatEventTime: Value -> string, now: int)
      returns (updates: seq<Directive>)
      requires store.Valid() && RetryAttempts < |attempts| && |draws| == |store.matches|
      modifies store
      ensures store.Valid()
      ensures updates == UpdatesFor(old(store.matches), useRealApi, attempts, draws, formatEventTime)
      ensures store.State() == old(store.State()).(
             apiCallCount := if useRealApi then old(store.apiCallCount) + 1 else old(store.apiCallCount),
             lastApiCall := if useRealApi then Some(now) else old(store.lastApiCall),
             matches := ApplyBatch(old(store.matches), updates),
             lastUpdated := Some(now),
             error := None)
    {
      if useRealApi {
        store.IncrementApiCallCount(now);
      }
      updates := RunFetchMatchUpdates(store, useRealApi, attempts, draws, formatEventTime, now);
    }

    /** A scheduled trend reset fires, whether or not the interval is still running. */
    method FireTrendReset(store: MatchesStore)
      requires Valid() && store.Valid() && pendingResets > 0
      modifies this, store
      ensures Valid() && store.Valid()
      ensures timers == old(timers) && intervalId == old(intervalId)
      ensures pendingResets == old(pendingResets) - 1
      ensures store.State() == old(store.State()).(matches := ResetAll(old(store.matches)))
    {
      store.ResetTrends();
      pendingResets := pendingResets - 1;
    }
  }
}
