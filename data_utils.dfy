/**
 * Validation and normalization of match data, trend classification and the
 * random odds perturbation used for simulated updates
 * (src/utils/dataUtils.js).
 *
 * Every `Math.random()` result is an explicit argument in [0, 1); the
 * locale-dependent date formatting is the argument `formatEventTime`.
 */
module DataUtils {
  import opened Wrappers
  import opened JsValues
  import opened Seqs
  import opened Odds

  /** Minimum change that registers as a trend. */
  const TrendThreshold: real := 0.01

  /** Volatility of the perturbation applied by simulated poll ticks. */
  const MockVolatility: real := 0.15

  /** Default probability that a simulated tick changes a given match. */
  const DefaultUpdateProbability: real := 0.3

  /** `Math.random()` results lie in [0, 1). */
  predicate IsRandom(x: real) {
    0.0 <= x < 1.0
  }

  /**
   * `calculateTrend`: changes smaller than the threshold are neutral; a change
   * of exactly the threshold already counts.
   */
  function CalculateTrend(oldOdds: real, newOdds: real): (t: Trend)
    ensures t == Neutral <==> -TrendThreshold < newOdds - oldOdds < TrendThreshold
    ensures t == Up <==> newOdds >= oldOdds + TrendThreshold
    ensures t == Down <==> newOdds <= oldOdds - TrendThreshold
  {
    var difference := newOdds - oldOdds;
    if Abs(difference) < TrendThreshold then Neutral
    else if difference > 0.0 then Up
    else Down
  }

  /**
   * `simulateOddsChange`: scale the odds by a random factor in
   * [1 - volatility/2, 1 + volatility/2), round to hundredths, and never go
   * below 1.01.
   */
  function SimulateOddsChange(currentOdds: real, volatility: real, random: real): (r: real)
    ensures r >= MinOdds && IsHundredths(r)
    ensures var target := currentOdds * (1.0 + (random - 0.5) * volatility);
      && (r == MinOdds || target - 0.005 < r <= target + 0.005)
      && (r == MinOdds ==> target < MinOdds + 0.005)
      && (target < MinOdds - 0.005 ==> r == MinOdds)
  {
    var variation := (random - 0.5) * volatility;
    var newOdds := currentOdds * (1.0 + variation);
    AtLeastMinOdds(Round2(newOdds))
  }

  const RequiredFields: seq<string> := ["id", "homeTeam", "awayTeam", "odds"]

  /** A JavaScript number greater than zero. */
  predicate IsPositiveNumber(v: Value) {
    v.Num? && v.n > 0.0
  }

  /**
   * `validateMatchData`: a record in the store's own shape, as read from the
   * bundled JSON file.
   */
  function ValidateMatchData(v: Value): (ok: bool)
    ensures ok <==>
      && v.Obj?
      && HasOwn(v, "id") && HasOwn(v, "homeTeam") && HasOwn(v, "awayTeam") && HasOwn(v, "odds")
      && Field(v, "odds").Obj?
      && IsPositiveNumber(Field(Field(v, "odds"), "home"))
      && IsPositiveNumber(Field(Field(v, "odds"), "draw"))
      && IsPositiveNumber(Field(Field(v, "odds"), "away"))
  {
    if !Truthy(v) || !IsObjectLike(v) then false
    else if !(forall f <- RequiredFields :: HasOwn(v, f)) then false
    else
      var odds := Field(v, "odds");
      if !Truthy(odds) || !IsObjectLike(odds) then false
      else forall t <- ["home", "draw", "away"] :: IsPositiveNumber(Field(odds, t))
  }

  /** A value parseFloat reads as a number greater than zero. */
  predicate ParsesPositive(v: Value) {
    var parsed := ParseFloat(v);
    parsed.Some? && parsed.value > 0.0
  }

  /** Present, and neither null nor undefined. */
  predicate IsPresent(v: Value, key: string) {
    HasOwn(v, key) && Field(v, key) != Null && Field(v, key) != Undefined
  }

  /** `validateApiEvent`: a raw event from the remote feed. */
  function ValidateApiEvent(v: Value): (ok: bool)
    ensures ok <==>
      && v.Obj?
      && IsPresent(v, "id") && IsPresent(v, "homeTeam") && IsPresent(v, "awayTeam") && IsPresent(v, "odds")
      && Field(v, "odds").Obj?
      && ParsesPositive(Field(Field(v, "odds"), "homeWin"))
      && ParsesPositive(Field(Field(v, "odds"), "draw"))
      && ParsesPositive(Field(Field(v, "odds"), "awayWin"))
  {
    assert forall f <- RequiredFields :: f in {RequiredFields[0], RequiredFields[1], RequiredFields[2], RequiredFields[3]};
    if !Truthy(v) || !IsObjectLike(v) then false
    else if !(forall f <- RequiredFields :: IsPresent(v, f)) then false
    else
      var odds := Field(v, "odds");
      if !Truthy(odds) || !IsObjectLike(odds) then false
      else AllOddsParsePositive(odds)
  }

  /** The three prices of a raw event's odds object all parse as positive numbers. */
  function AllOddsParsePositive(odds: Value): (ok: bool)
    ensures ok <==>
      && ParsesPositive(Field(odds, "homeWin"))
      && ParsesPositive(Field(odds, "draw"))
      && ParsesPositive(Field(odds, "awayWin"))
  {
    var keys := ["homeWin", "draw", "awayWin"];
    assert forall t <- keys :: t == keys[0] || t == keys[1] || t == keys[2];
    forall t <- keys :: ParsesPositive(Field(odds, t))
  }

  /**
   * `filterValidApiEvents`: [] for a non-array; otherwise the valid events in
   * their original order, and as many dropped as the input has invalid ones.
   */
  function FilterValidApiEvents(events: Value): (r: seq<Value>)
    ensures !events.Arr? ==> r == []
    ensures events.Arr? ==> IsSubsequence(r, events.items)
    ensures forall e <- r :: ValidateApiEvent(e)
    ensures events.Arr? ==> forall e <- events.items :: ValidateApiEvent(e) ==> e in r
    ensures events.Arr? ==> |events.items| - |r| == |Filter(events.items, v => !ValidateApiEvent(v))|
  {
    if !events.Arr? then []
    else
      FilterIsSubsequence(events.items, ValidateApiEvent);
      FilterPartition(events.items, ValidateApiEvent, v => !ValidateApiEvent(v));
      Filter(events.items, ValidateApiEvent)
  }

  /** `parseFloat(x) || 1.0`: a parsed non-zero price is kept; NaN and zero fall back to 1.0. */
  function OddsOrOne(x: Value): (r: real)
    ensures ParseFloat(x).Some? && ParseFloat(x).value != 0.0 ==> r == ParseFloat(x).value
    ensures ParseFloat(x).None? || ParseFloat(x).value == 0.0 ==> r == 1.0
  {
    match ParseFloat(x)
    case Some(v) => if v != 0.0 then v else 1.0
    case None => 1.0
  }

  /** The key of an outcome's price in the remote feed. */
  function ApiOddsKey(o: Outcome): string {
    match o
    case Home => "homeWin"
    case Draw => "draw"
    case Away => "awayWin"
  }

  /**
   * `transformOdds`: `homeWin`/`draw`/`awayWin` become `home`/`draw`/`away`,
   * each parsed, with 1.0 for NaN and zero; a non-object gives 1.0 for all.
   */
  function TransformOdds(apiOdds: Value): (r: PerOutcome<real>)
    ensures forall o :: r.Get(o) != 0.0
    ensures !IsObjectLike(apiOdds) ==> r == PerOutcome(1.0, 1.0, 1.0)
    ensures IsObjectLike(apiOdds) ==> forall o ::
      var parsed := ParseFloat(Field(apiOdds, ApiOddsKey(o)));
      && (parsed.Some? && parsed.value != 0.0 ==> r.Get(o) == parsed.value)
      && (parsed.None? || parsed.value == 0.0 ==> r.Get(o) == 1.0)
  {
    if !Truthy(apiOdds) || !IsObjectLike(apiOdds) then PerOutcome(1.0, 1.0, 1.0)
    else PerOutcome(
      OddsOrOne(Field(apiOdds, "homeWin")),
      OddsOrOne(Field(apiOdds, "draw")),
      OddsOrOne(Field(apiOdds, "awayWin")))
  }

  /** `formatLeague`: "category / league". */
  function FormatLeague(category: Value, league: Value): string {
    Text(category) + " / " + Text(league)
  }

  /** The record `transformApiEventToMatch` builds from an object-like event. */
  function MatchOf(e: Value, formatEventTime: Value -> string): Match {
    Match(
      id := Field(e, "id"),
      time := formatEventTime(Field(e, "date")),
      homeTeam := Or(Field(e, "homeTeam"), Str("Unknown Team")),
      awayTeam := Or(Field(e, "awayTeam"), Str("Unknown Team")),
      league := FormatLeague(Or(Field(e, "category"), Str("Sports")), Or(Field(e, "league"), Str("Unknown League"))),
      odds := TransformOdds(Field(e, "odds")),
      totalMatches := Or(Field(e, "betCount"), Num(0.0)),
      trends := AllNeutral,
      isHot := Or(Field(e, "isHot"), Bool(false)))
  }

  /**
   * `transformApiEventToMatch`: throws for anything that is not an object;
   * otherwise a record with neutral trends whose odds are the parsed prices
   * of a valid event.
   */
  function TransformApiEventToMatch(e: Value, formatEventTime: Value -> string): (r: Result<Match, string>)
    ensures r.Success? <==> IsObjectLike(e)
    ensures r.Failure? ==> r.error == "Invalid API event data"
    ensures r.Success? ==>
      && r.value.id == Field(e, "id") && r.value.trends == AllNeutral
      && r.value.time == formatEventTime(Field(e, "date"))
      && r.value.odds == TransformOdds(Field(e, "odds"))
    ensures r.Success? ==>
      && (Truthy(Field(e, "homeTeam")) ==> r.value.homeTeam == Field(e, "homeTeam"))
      && (!Truthy(Field(e, "homeTeam")) ==> r.value.homeTeam == Str("Unknown Team"))
      && (Truthy(Field(e, "awayTeam")) ==> r.value.awayTeam == Field(e, "awayTeam"))
      && (!Truthy(Field(e, "awayTeam")) ==> r.value.awayTeam == Str("Unknown Team"))
    ensures r.Success? ==>
      var category, league := Field(e, "category"), Field(e, "league");
      r.value.league == (if Truthy(category) then Text(category) else "Sports") + " / "
                        + (if Truthy(league) then Text(league) else "Unknown League")
    ensures r.Success? ==>
      && (Truthy(Field(e, "betCount")) ==> r.value.totalMatches == Field(e, "betCount"))
      && (!Truthy(Field(e, "betCount")) ==> r.value.totalMatches == Num(0.0))
      && (Truthy(Field(e, "isHot")) ==> r.value.isHot == Field(e, "isHot"))
      && (!Truthy(Field(e, "isHot")) ==> r.value.isHot == Bool(false))
    ensures ValidateApiEvent(e) ==>
      && r.Success?
      && r.value.odds.home == ParseFloat(Field(Field(e, "odds"), "homeWin")).value
      && r.value.odds.draw == ParseFloat(Field(Field(e, "odds"), "draw")).value
      && r.value.odds.away == ParseFloat(Field(Field(e, "odds"), "awayWin")).value
      && forall o :: r.value.odds.Get(o) > 0.0
  {
    if !Truthy(e) || !IsObjectLike(e) then Failure("Invalid API event data")
    else Success(MatchOf(e, formatEventTime))
  }

  /** One iteration of the `forEach` in `transformApiEventsToMatches`: a thrown error skips the event. */
  function NormalizeStep(formatEventTime: Value -> string): Value -> Option<Match> {
    e => TransformApiEventToMatch(e, formatEventTime).ToOption()
  }

  /**
   * `transformApiEventsToMatches`: [] for a non-array; otherwise the
   * transformed events, skipping those whose transformation throws.
   */
  method TransformApiEventsToMatches(events: Value, formatEventTime: Value -> string) returns (matches: seq<Match>)
    ensures !events.Arr? ==> matches == []
    ensures events.Arr? ==> matches == FilterMap(events.items, NormalizeStep(formatEventTime))
  {
    if !events.Arr? {
      return [];
    }
    matches := CollectResults(events.items, NormalizeStep(formatEventTime));
  }

  /** Normalization skips exactly the events that are not objects. */
  lemma {:induction false} NormalizeSkipsOnlyNonObjects(items: seq<Value>, formatEventTime: Value -> string)
    ensures |FilterMap(items, NormalizeStep(formatEventTime))| == |Filter(items, IsObjectLike)|
  {
    if items != [] {
      NormalizeSkipsOnlyNonObjects(items[..|items| - 1], formatEventTime);
    }
  }

  /** Every event that passed validation survives normalization, one record per event. */
  lemma ValidEventsAllNormalize(events: Value, formatEventTime: Value -> string)
    ensures |FilterMap(FilterValidApiEvents(events), NormalizeStep(formatEventTime))| == |FilterValidApiEvents(events)|
  {
    var valid := FilterValidApiEvents(events);
    NormalizeSkipsOnlyNonObjects(valid, formatEventTime);
    FilterKeepsAll(valid, IsObjectLike);
  }

  /** A filter whose predicate holds everywhere keeps everything. */
  lemma {:induction false} FilterKeepsAll<T>(s: seq<T>, p: T -> bool)
    requires forall x <- s :: p(x)
    ensures Filter(s, p) == s
  {
    if s != [] {
      FilterKeepsAll(s[..|s| - 1], p);
      assert s == s[..|s| - 1] + [s[|s| - 1]];
    }
  }

  // ---------------------------------------------------------------------
  // Simulated updates

  /** The three `Math.random()` results one match may consume in `generateMockUpdates`. */
  datatype Draws = Draws(select: real, pick: real, jitter: real)

  /** `oddsTypes[Math.floor(random * oddsTypes.length)]` */
  function OutcomeOfDraw(random: real): (o: Outcome)
    ensures IsRandom(random) ==> o == Outcomes[(random * 3.0).Floor]
  {
    var k := (random * 3.0).Floor;
    if k <= 0 then Home else if k == 1 then Draw else Away
  }

  /** The directive `generateMockUpdates` pushes for one match, if the match is selected. */
  function MockDirective(m: Match, d: Draws, updateProbability: real): Option<Directive> {
    if d.select < updateProbability then
      var oddsType := OutcomeOfDraw(d.pick);
      var currentOdds := m.odds.Get(oddsType);
      var newOdds := SimulateOddsChange(currentOdds, MockVolatility, d.jitter);
      Some(Directive(m.id, oddsType, newOdds, Some(CalculateTrend(currentOdds, newOdds))))
    else None
  }

  function MockStep(updateProbability: real): ((Match, Draws)) -> Option<Directive> {
    (p: (Match, Draws)) => MockDirective(p.0, p.1, updateProbability)
  }

  function Zip<A, B>(a: seq<A>, b: seq<B>): (r: seq<(A, B)>)
    requires |a| == |b|
    ensures |r| == |a| && forall i :: 0 <= i < |a| ==> r[i] == (a[i], b[i])
  {
    seq(|a|, i requires 0 <= i < |a| => (a[i], b[i]))
  }

  /** `generateMockUpdates`: draws[i] are the random numbers the i-th match consumes. */
  method GenerateMockUpdates(matches: seq<Match>, updateProbability: real, draws: seq<Draws>)
    returns (updates: seq<Directive>)
    requires |draws| == |matches|
    ensures updates == FilterMap(Zip(matches, draws), MockStep(updateProbability))
  {
    updates := CollectResults(Zip(matches, draws), MockStep(updateProbability));
  }

  /**
   * Every simulated directive names an input match, changes one of its
   * outcomes to odds of at least 1.01 in hundredths, and carries the trend
   * `calculateTrend` gives for that change.
   */
  lemma {:induction false} MockUpdatesShape(matches: seq<Match>, updateProbability: real, draws: seq<Draws>)
    requires |draws| == |matches|
    ensures forall d <- FilterMap(Zip(matches, draws), MockStep(updateProbability)) ::
      && d.newOdds >= MinOdds && IsHundredths(d.newOdds)
      && (exists i :: 0 <= i < |matches| && d.matchId == matches[i].id
                      && d.trend == Some(CalculateTrend(matches[i].odds.Get(d.oddsType), d.newOdds)))
  {
    var step := MockStep(updateProbability);
    var pairs := Zip(matches, draws);
    var r := FilterMap(pairs, step);
    var idx := FilterMapIndices(pairs, step);
    forall d <- r
      ensures d.newOdds >= MinOdds && IsHundredths(d.newOdds)
      ensures exists i :: (0 <= i < |matches| && d.matchId == matches[i].id
                           && d.trend == Some(CalculateTrend(matches[i].odds.Get(d.oddsType), d.newOdds)))
    {
      var k :| 0 <= k < |r| && r[k] == d;
      var i := idx[k];
      assert step(pairs[i]) == Some(d);
      assert MockDirective(matches[i], draws[i], updateProbability) == Some(d);
    }
  }
}
