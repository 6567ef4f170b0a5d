/**
 * Clicking an odds button nudges that outcome's price by a random amount,
 * marks the direction of the change, and two seconds later sets the
 * outcome's trend back to neutral. The random draw is a parameter; the
 * two-second delay is the caller's to schedule with the reset this returns.
 */
module OddsSection {
  import opened Wrappers
  import opened JsValues
  import opened Odds
  import opened DataUtils
  import opened MatchUpdates
  import opened MatchesSlice

  /** The width of the random nudge: `(Math.random() - 0.5) * 0.3`. */
  const NudgeSpread: real := 0.3

  /** `Math.max(1.01, Math.round((currentOdds + variation) * 100) / 100)` */
  function NudgedOdds(currentOdds: real, random: real): (r: real)
    ensures r >= MinOdds && IsHundredths(r)
    ensures var target := currentOdds + (random - 0.5) * NudgeSpread;
      && (r == MinOdds || target - 0.005 < r <= target + 0.005)
      && (r == MinOdds ==> target < MinOdds + 0.005)
      && (target < MinOdds - 0.005 ==> r == MinOdds)
  {
    AtLeastMinOdds(Round2(currentOdds + (random - 0.5) * NudgeSpread))
  }

  /** The button's trend rule: any rise is up, any fall is down, no change is neutral. */
  function DirectTrend(currentOdds: real, newOdds: real): (t: Trend)
    ensures t == Up <==> newOdds > currentOdds
    ensures t == Down <==> newOdds < currentOdds
    ensures t == Neutral <==> newOdds == currentOdds
  {
    if newOdds > currentOdds then Up else if newOdds < currentOdds then Down else Neutral
  }

  /**
   * The button's rule has no threshold: it agrees with `calculateTrend` on
   * changes of at least 0.01 and disagrees on every smaller non-zero change,
   * which `calculateTrend` calls neutral.
   */
  lemma DirectTrendAgainstCalculateTrend(currentOdds: real, newOdds: real)
    ensures Abs(newOdds - currentOdds) >= TrendThreshold ==> DirectTrend(currentOdds, newOdds) == CalculateTrend(currentOdds, newOdds)
    ensures 0.0 < Abs(newOdds - currentOdds) < TrendThreshold ==>
      DirectTrend(currentOdds, newOdds) != Neutral && CalculateTrend(currentOdds, newOdds) == Neutral
  {
  }

  /** The trend reset a click schedules. */
  datatype TrendReset = TrendReset(matchId: Value, oddsType: Outcome)

  /** The list after a click's two updates: the price first, then the trend. */
  function AfterNudge(ms: seq<Match>, m: Match, oddsType: Outcome, random: real): seq<Match> {
    var currentOdds := m.odds.Get(oddsType);
    var newOdds := NudgedOdds(currentOdds, random);
    SetTrend(ApplyDirective(ms, Directive(m.id, oddsType, newOdds, None)), m.id, oddsType, DirectTrend(currentOdds, newOdds))
  }

  /**
   * `simulateOddsUpdate(oddsType)` on the match m as displayed: dispatch the
   * new price, then the trend, for the same match and outcome, and schedule
   * the reset of that trend.
   */
  method SimulateOddsUpdate(store: MatchesStore, m: Match, oddsType: Outcome, random: real, now: int)
    returns (reset: TrendReset)
    requires store.Valid()
    modifies store
    ensures store.Valid()
    ensures reset == TrendReset(m.id, oddsType)
    ensures FindMatch(old(store.matches), m.id).Some? ==>
      store.State() == old(store.State()).(matches := AfterNudge(old(store.matches), m, oddsType, random),
                                           lastUpdated := Some(now))
    ensures FindMatch(old(store.matches), m.id).None? ==> store.State() == old(store.State())
  {
    var currentOdds := m.odds.Get(oddsType);
    var newOdds := NudgedOdds(currentOdds, random);
    var trend := DirectTrend(currentOdds, newOdds);
    store.UpdateOdds(m.id, oddsType, newOdds, now);
    store.UpdateTrend(m.id, oddsType, trend);
    reset := TrendReset(m.id, oddsType);
  }

  /** The scheduled reset: that one outcome's trend goes back to neutral. */
  method FireTrendReset(store: MatchesStore, reset: TrendReset)
    requires store.Valid()
    modifies store
    ensures store.Valid()
    ensures store.State() == old(store.State()).(matches := SetTrend(old(store.matches), reset.matchId, reset.oddsType, Neutral))
  {
    store.UpdateTrend(reset.matchId, reset.oddsType, Neutral);
  }

  /**
   * A click on a stored match changes exactly that match's price and trend
   * for the clicked outcome: the price to the nudged one (at least 1.01, in
   * hundredths) and the trend to the direction of the change.
   */
  lemma NudgeChangesOneOutcome(ms: seq<Match>, m: Match, oddsType: Outcome, random: real)
    requires FindMatch(ms, m.id).Some?
    ensures var i := FindMatch(ms, m.id).value;
      var r := AfterNudge(ms, m, oddsType, random);
      var newOdds := NudgedOdds(m.odds.Get(oddsType), random);
      && SameEvents(r, ms)
      && r[i].odds.Get(oddsType) == newOdds && newOdds >= MinOdds && IsHundredths(newOdds)
      && r[i].trends.Get(oddsType) == DirectTrend(m.odds.Get(oddsType), newOdds)
      && (forall o :: o != oddsType ==> r[i].odds.Get(o) == ms[i].odds.Get(o) && r[i].trends.Get(o) == ms[i].trends.Get(o))
      && (forall j :: 0 <= j < |ms| && j != i ==> r[j] == ms[j])
  {
    var newOdds := NudgedOdds(m.odds.Get(oddsType), random);
    var priced := ApplyDirective(ms, Directive(m.id, oddsType, newOdds, None));
    FindMatchSameEvents(priced, ms, m.id);
    SameEventsTransitive(AfterNudge(ms, m, oddsType, random), priced, ms);
  }
}
