/**
 * The list operations the matches store performs on its `matches` array and
 * its `errorHistory`, as values: finding a match by id, writing one outcome's
 * price or trend, applying a batch of directives, resetting every trend, the
 * capped error log, and the comparison of freshly fetched matches with the
 * stored ones that yields the real-time update directives.
 */
module MatchUpdates {
  import opened Wrappers
  import opened JsValues
  import opened Odds

  /** `matches.find((m) => m.id === matchId)`, as the index of the match it finds. */
  function FindMatch(ms: seq<Match>, id: Value): (r: Option<nat>)
    ensures r.Some? ==> r.value < |ms| && ms[r.value].id == id
    ensures r.Some? ==> forall j :: 0 <= j < r.value ==> ms[j].id != id
    ensures r.None? ==> forall m <- ms :: m.id != id
  {
    if ms == [] then None
    else if ms[0].id == id then Some(0)
    else
      match FindMatch(ms[1..], id)
      case None => None
      case Some(i) => Some(i + 1)
  }

  /** a and b hold the same events in the same order; only prices and trends may differ. */
  predicate SameEvents(a: seq<Match>, b: seq<Match>) {
    |a| == |b| && forall i :: 0 <= i < |a| ==> a[i].(odds := b[i].odds, trends := b[i].trends) == b[i]
  }

  lemma SameEventsTransitive(a: seq<Match>, b: seq<Match>, c: seq<Match>)
    requires SameEvents(a, b) && SameEvents(b, c)
    ensures SameEvents(a, c)
  {
    forall i | 0 <= i < |a|
      ensures a[i].(odds := c[i].odds, trends := c[i].trends) == c[i]
    {
      assert a[i].(odds := b[i].odds, trends := b[i].trends) == b[i];
      assert b[i].(odds := c[i].odds, trends := c[i].trends) == c[i];
    }
  }

  /** Lookups by id agree on lists that hold the same events. */
  lemma FindMatchSameEvents(a: seq<Match>, b: seq<Match>, id: Value)
    requires SameEvents(a, b)
    ensures FindMatch(a, id) == FindMatch(b, id)
  {
    assert forall i :: 0 <= i < |a| ==> a[i].id == b[i].id by {
      forall i | 0 <= i < |a|
        ensures a[i].id == b[i].id
      {
        assert a[i].(odds := b[i].odds, trends := b[i].trends) == b[i];
      }
    }
    FindMatchSameIds(a, b, id);
  }

  lemma FindMatchSameIds(a: seq<Match>, b: seq<Match>, id: Value)
    requires |a| == |b| && forall i :: 0 <= i < |a| ==> a[i].id == b[i].id
    ensures FindMatch(a, id) == FindMatch(b, id)
  {
    var ra, rb := FindMatch(a, id), FindMatch(b, id);
    if ra.Some? {
      assert b[ra.value] in b;
    }
    if rb.Some? {
      assert a[rb.value] in a;
    }
    if ra.Some? && rb.Some? {
      var i, k := ra.value, rb.value;
      assert a[k].id == id && b[i].id == id;
      if i < k {
        assert false;
      } else if k < i {
        assert false;
      }
    }
  }

  /**
   * One `{matchId, oddsType, newOdds, trend}` applied to the list: the first
   * match with the id gets the new price for that outcome and, when the
   * directive carries one, the new trend for it; an unknown id changes nothing.
   */
  function ApplyDirective(ms: seq<Match>, d: Directive): (r: seq<Match>)
    ensures SameEvents(r, ms)
    ensures FindMatch(ms, d.matchId).None? ==> r == ms
    ensures FindMatch(ms, d.matchId).Some? ==>
      var i := FindMatch(ms, d.matchId).value;
      && r[i].odds.Get(d.oddsType) == d.newOdds
      && (forall o :: o != d.oddsType ==> r[i].odds.Get(o) == ms[i].odds.Get(o))
      && (d.trend.Some? ==> r[i].trends.Get(d.oddsType) == d.trend.value)
      && (forall o :: o != d.oddsType || d.trend.None? ==> r[i].trends.Get(o) == ms[i].trends.Get(o))
      && forall j :: 0 <= j < |ms| && j != i ==> r[j] == ms[j]
  {
    match FindMatch(ms, d.matchId)
    case None => ms
    case Some(i) =>
      var m := ms[i];
      var trends := if d.trend.Some? then m.trends.With(d.oddsType, d.trend.value) else m.trends;
      ms[i := m.(odds := m.odds.With(d.oddsType, d.newOdds), trends := trends)]
  }

  /** `updateTrend` on the list: the first match with the id gets the trend for one outcome. */
  function SetTrend(ms: seq<Match>, id: Value, t: Outcome, trend: Trend): (r: seq<Match>)
    ensures SameEvents(r, ms)
    ensures FindMatch(ms, id).None? ==> r == ms
    ensures FindMatch(ms, id).Some? ==>
      var i := FindMatch(ms, id).value;
      && r[i].odds == ms[i].odds
      && r[i].trends.Get(t) == trend
      && (forall o :: o != t ==> r[i].trends.Get(o) == ms[i].trends.Get(o))
      && forall j :: 0 <= j < |ms| && j != i ==> r[j] == ms[j]
  {
    match FindMatch(ms, id)
    case None => ms
    case Some(i) => ms[i := ms[i].(trends := ms[i].trends.With(t, trend))]
  }

  /** The directives applied one after the other, in payload order. */
  function ApplyBatch(ms: seq<Match>, ds: seq<Directive>): (r: seq<Match>)
    ensures SameEvents(r, ms)
  {
    if ds == [] then ms
    else
      var prev := ApplyBatch(ms, ds[..|ds| - 1]);
      var r := ApplyDirective(prev, ds[|ds| - 1]);
      SameEventsTransitive(r, prev, ms);
      r
  }

  /** Applying one more directive of a batch extends the applied prefix by that directive. */
  lemma ApplyBatchSnoc(ms: seq<Match>, ds: seq<Directive>, i: nat)
    requires i < |ds|
    ensures ApplyBatch(ms, ds[..i + 1]) == ApplyDirective(ApplyBatch(ms, ds[..i]), ds[i])
  {
    assert ds[..i + 1][..i] == ds[..i];
  }

  /** A batch whose ids are all unknown leaves the list as it was. */
  lemma {:induction false} ApplyBatchIgnoresUnknownIds(ms: seq<Match>, ds: seq<Directive>)
    requires forall d <- ds :: FindMatch(ms, d.matchId).None?
    ensures ApplyBatch(ms, ds) == ms
  {
    if ds != [] {
      ApplyBatchIgnoresUnknownIds(ms, ds[..|ds| - 1]);
    }
  }

  /** The price the last directive of ds addressed to match i and outcome t sets, if any. */
  function LastWrite(ms: seq<Match>, ds: seq<Directive>, i: nat, t: Outcome): Option<real> {
    if ds == [] then None
    else
      var d := ds[|ds| - 1];
      if FindMatch(ms, d.matchId) == Some(i) && d.oddsType == t then Some(d.newOdds)
      else LastWrite(ms, ds[..|ds| - 1], i, t)
  }

  /** After a batch each price is the one the last directive for it wrote, or the old one. */
  lemma {:induction false} ApplyBatchLastWriteWins(ms: seq<Match>, ds: seq<Directive>, i: nat, t: Outcome)
    requires i < |ms|
    ensures ApplyBatch(ms, ds)[i].odds.Get(t) == LastWrite(ms, ds, i, t).GetOr(ms[i].odds.Get(t))
  {
    if ds != [] {
      var prev := ApplyBatch(ms, ds[..|ds| - 1]);
      ApplyBatchLastWriteWins(ms, ds[..|ds| - 1], i, t);
      FindMatchSameEvents(prev, ms, ds[|ds| - 1].matchId);
    }
  }

  /** `resetTrends` on the list: every trend neutral, every price kept. */
  function ResetAll(ms: seq<Match>): (r: seq<Match>)
    ensures SameEvents(r, ms)
    ensures forall i :: 0 <= i < |r| ==> r[i].trends == AllNeutral && r[i].odds == ms[i].odds
  {
    seq(|ms|, i requires 0 <= i < |ms| => ms[i].(trends := AllNeutral))
  }

  // ---------------------------------------------------------------------
  // The error log

  /** The error log keeps this many entries. */
  const MaxErrorHistory: nat := 10

  function Min(a: int, b: int): int {
    if a < b then a else b
  }

  /** `unshift(e)`, then `slice(0, 10)` when the log grew past ten. */
  function PushCapped<T>(h: seq<T>, e: T): (r: seq<T>)
    ensures |r| == Min(|h| + 1, MaxErrorHistory)
    ensures r[0] == e
    ensures forall k :: 1 <= k < |r| ==> r[k] == h[k - 1]
  {
    var grown := [e] + h;
    if |grown| > MaxErrorHistory then grown[..MaxErrorHistory] else grown
  }

  function Reverse<T>(s: seq<T>): (r: seq<T>)
    ensures |r| == |s|
  {
    if s == [] then [] else Reverse(s[1..]) + [s[0]]
  }

  /** es logged in order, es[0] first. */
  function PushAll<T>(h: seq<T>, es: seq<T>): seq<T>
    decreases |es|
  {
    if es == [] then h else PushAll(PushCapped(h, es[0]), es[1..])
  }

  /** The log holds the ten most recent entries, most recent first. */
  lemma {:induction false} PushAllKeepsNewest<T>(h: seq<T>, es: seq<T>)
    requires |h| <= MaxErrorHistory
    ensures PushAll(h, es) == (Reverse(es) + h)[..Min(|es| + |h|, MaxErrorHistory)]
    decreases |es|
  {
    if es != [] {
      var e, rest := es[0], es[1..];
      var k := Min(|h| + 1, MaxErrorHistory);
      var h1 := PushCapped(h, e);
      assert h1 == ([e] + h)[..k];
      PushAllKeepsNewest(h1, rest);
      var m := Min(|es| + |h|, MaxErrorHistory);
      assert Min(|rest| + k, MaxErrorHistory) == m;
      var a := Reverse(rest);
      assert Reverse(es) + h == a + ([e] + h);
      assert (a + h1)[..m] == (a + ([e] + h))[..m];
      assert PushAll(h, es) == PushAll(h1, rest);
    }
  }

  // ---------------------------------------------------------------------
  // Comparing fetched matches with the stored ones

  /** A price has changed when it moved by more than this. */
  const ChangeThreshold: real := 0.01

  /** d is what the comparison emits for fresh match f and outcome t. */
  predicate Emits(current: seq<Match>, f: Match, t: Outcome, d: Directive) {
    match FindMatch(current, f.id)
    case None => false
    case Some(i) =>
      var cur, next := current[i].odds.Get(t), f.odds.Get(t);
      Abs(cur - next) > ChangeThreshold && d == Directive(f.id, t, next, Some(if next > cur then Up else Down))
  }

  /** The directive for outcome t of a fresh match against the stored match c, if its price moved. */
  function OddsChange(c: Match, f: Match, t: Outcome): seq<Directive> {
    var cur, next := c.odds.Get(t), f.odds.Get(t);
    if Abs(cur - next) > ChangeThreshold then [Directive(f.id, t, next, Some(if next > cur then Up else Down))]
    else []
  }

  /** The directives for the outcomes ts, in that order. */
  function OddsChanges(c: Match, f: Match, ts: seq<Outcome>): seq<Directive> {
    if ts == [] then []
    else OddsChanges(c, f, ts[..|ts| - 1]) + OddsChange(c, f, ts[|ts| - 1])
  }

  /** The directives for one fresh match: none when no stored match has its id. */
  function MatchChanges(current: seq<Match>, f: Match): seq<Directive> {
    match FindMatch(current, f.id)
    case None => []
    case Some(i) => OddsChanges(current[i], f, Outcomes)
  }

  /** The directives for all fresh matches, in their order. */
  function Diff(current: seq<Match>, latest: seq<Match>): seq<Directive> {
    if latest == [] then []
    else Diff(current, latest[..|latest| - 1]) + MatchChanges(current, latest[|latest| - 1])
  }

  lemma OddsChangeEmits(current: seq<Match>, f: Match, t: Outcome, d: Directive)
    requires FindMatch(current, f.id).Some?
    ensures d in OddsChange(current[FindMatch(current, f.id).value], f, t) <==> Emits(current, f, t, d)
  {
  }

  lemma {:induction false} OddsChangesCharacterized(current: seq<Match>, f: Match, ts: seq<Outcome>, d: Directive)
    requires FindMatch(current, f.id).Some?
    ensures d in OddsChanges(current[FindMatch(current, f.id).value], f, ts) <==>
      exists t :: t in ts && Emits(current, f, t, d)
  {
    if ts != [] {
      var init, last := ts[..|ts| - 1], ts[|ts| - 1];
      OddsChangesCharacterized(current, f, init, d);
      OddsChangeEmits(current, f, last, d);
      assert ts == init + [last];
      assert forall t :: t in ts <==> t in init || t == last;
    }
  }

  lemma MatchChangesCharacterized(current: seq<Match>, f: Match, d: Directive)
    ensures d in MatchChanges(current, f) <==> exists t :: Emits(current, f, t, d)
  {
    if FindMatch(current, f.id).Some? {
      OddsChangesCharacterized(current, f, Outcomes, d);
      EveryOutcomeListed();
    }
  }

  /**
   * A directive is in the comparison's output exactly when some latest match
   * has a stored counterpart (the first stored match with its id) and one of
   * its outcomes moved by more than 0.01 against it,
   * and the directive carries that match's id, the outcome, the latest price
   * and the trend (up when it rose, down when it fell).
   */
  lemma {:induction false} DiffCharacterized(current: seq<Match>, latest: seq<Match>, d: Directive)
    ensures d in Diff(current, latest) <==> exists f, t :: f in latest && Emits(current, f, t, d)
  {
    if latest != [] {
      var init, last := latest[..|latest| - 1], latest[|latest| - 1];
      DiffCharacterized(current, init, d);
      MatchChangesCharacterized(current, last, d);
      assert latest == init + [last];
      assert forall f :: f in latest <==> f in init || f == last;
    }
  }

  /** Ids that occur once each. */
  predicate DistinctIds(ms: seq<Match>) {
    forall i, j :: 0 <= i < j < |ms| ==> ms[i].id != ms[j].id
  }

  /** Comparing a list of distinct matches with itself emits nothing. */
  lemma UnchangedMatchesEmitNothing(ms: seq<Match>)
    requires DistinctIds(ms)
    ensures forall d :: d !in Diff(ms, ms)
  {
    forall d
      ensures d !in Diff(ms, ms)
    {
      DiffCharacterized(ms, ms, d);
      forall f, t | f in ms
        ensures !Emits(ms, f, t, d)
      {
        var j :| 0 <= j < |ms| && ms[j] == f;
        assert FindMatch(ms, f.id) == Some(j);
      }
    }
  }
}
