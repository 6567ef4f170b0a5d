/**
 * The internal match record and the update directive that the store, the
 * update generators and the odds buttons exchange, together with the
 * two-decimal rounding `Math.round(x * 100) / 100` that every odds change goes
 * through.
 */
module Odds {
  import opened Wrappers
  import opened JsValues

  /** The three betting sides, in the order the code iterates them. */
  datatype Outcome = Home | Draw | Away

  const Outcomes: seq<Outcome> := [Home, Draw, Away]

  lemma EveryOutcomeListed()
    ensures forall o :: o in Outcomes
  {
    forall o
      ensures o in Outcomes
    {
      match o
      case Home => assert Outcomes[0] == o;
      case Draw => assert Outcomes[1] == o;
      case Away => assert Outcomes[2] == o;
    }
  }

  /** The direction of the most recent change of one outcome's odds. */
  datatype Trend = Up | Down | Neutral

  /** A record with exactly the keys `home`, `draw` and `away`. */
  datatype PerOutcome<T> = PerOutcome(home: T, draw: T, away: T) {
    /** `record[oddsType]` */
    function Get(o: Outcome): T {
      match o
      case Home => home
      case Draw => draw
      case Away => away
    }

    /** `record[oddsType] = v` */
    function With(o: Outcome, v: T): (r: PerOutcome<T>)
      ensures r.Get(o) == v
      ensures forall o' :: o' != o ==> r.Get(o') == Get(o')
    {
      match o
      case Home => this.(home := v)
      case Draw => this.(draw := v)
      case Away => this.(away := v)
    }
  }

  const AllNeutral: PerOutcome<Trend> := PerOutcome(Neutral, Neutral, Neutral)

  /**
   * One sports event as the store holds it. The fields the normalizer copies
   * through `x || default` keep the JavaScript value they were given.
   * The normalization timestamp `lastUpdated` is not modelled.
   */
  datatype Match = Match(
    id: Value,
    time: string,
    homeTeam: Value,
    awayTeam: Value,
    league: string,
    odds: PerOutcome<real>,
    totalMatches: Value,
    trends: PerOutcome<Trend>,
    isHot: Value)

  /**
   * `{matchId, oddsType, newOdds, trend}`: change one outcome of one match.
   * `trend` is None where the payload has no (or a falsy) trend.
   */
  datatype Directive = Directive(matchId: Value, oddsType: Outcome, newOdds: real, trend: Option<Trend>)

  /** Odds never go below this after a simulated change. */
  const MinOdds: real := 1.01

  /** x has at most two decimal digits. */
  predicate IsHundredths(x: real) {
    (x * 100.0).Floor as real == x * 100.0
  }

  /** `Math.round(x * 100) / 100`: Math.round rounds halves up. */
  function Round2(x: real): (r: real)
    ensures IsHundredths(r)
    ensures x - 0.005 < r <= x + 0.005
  {
    var k := (x * 100.0 + 0.5).Floor;
    assert (k as real / 100.0) * 100.0 == k as real;
    k as real / 100.0
  }

  /** `Math.max(1.01, x)` */
  function AtLeastMinOdds(x: real): (r: real)
    ensures r >= MinOdds
    ensures x >= MinOdds ==> r == x
    ensures x < MinOdds ==> r == MinOdds
    ensures IsHundredths(x) ==> IsHundredths(r)
  {
    assert MinOdds * 100.0 == 101.0;
    if x > MinOdds then x else MinOdds
  }

  function Abs(x: real): real {
    if x < 0.0 then -x else x
  }
}
