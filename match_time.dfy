/**
 * How a match's time string is shown: a string of three or more
 * space-separated pieces (e.g. "14:30 Sat 12/10") is shown as the time (the
 * first piece) followed by the day and date (the rest); anything else (e.g.
 * "TBD") is shown whole.
 */
module MatchTime {

  /** The index of the first space in s. */
  function FirstSpace(s: string): (i: nat)
    requires ' ' in s
    ensures i < |s| && s[i] == ' ' && ' ' !in s[..i]
    ensures forall k :: 0 <= k < i ==> s[k] != ' '
  {
    if s[0] == ' ' then 0
    else
      var i := 1 + FirstSpace(s[1..]);
      assert s[..i] == [s[0]] + s[1..][..i - 1];
      i
  }

  /** `s.split(" ")`: the pieces between single spaces; adjacent spaces give empty pieces. */
  function Split(s: string): (parts: seq<string>)
    ensures |parts| >= 1
    ensures forall p <- parts :: ' ' !in p
    decreases |s|
  {
    if ' ' !in s then [s]
    else
      var i := FirstSpace(s);
      [s[..i]] + Split(s[i + 1..])
  }

  /** `parts.join(" ")` */
  function Join(parts: seq<string>): string {
    if |parts| == 0 then ""
    else if |parts| == 1 then parts[0]
    else parts[0] + " " + Join(parts[1..])
  }

  /** Joining the pieces with spaces gives back the string. */
  lemma {:induction false} JoinSplit(s: string)
    ensures Join(Split(s)) == s
    decreases |s|
  {
    if ' ' in s {
      var i := FirstSpace(s);
      JoinSplit(s[i + 1..]);
      assert s == s[..i] + " " + s[i + 1..];
    }
  }

  /** A space-free piece, a space, and the rest split into the piece and the pieces of the rest. */
  lemma SplitAfterPiece(head: string, rest: string)
    requires ' ' !in head
    ensures Split(head + " " + rest) == [head] + Split(rest)
  {
    var s := head + " " + rest;
    assert s[|head|] == ' ';
    assert forall k :: 0 <= k < |head| ==> s[k] == head[k];
    var j := FirstSpace(s);
    assert j == |head|;
    assert s[..j] == head && s[j + 1..] == rest;
  }

  /** Splitting a join of space-free pieces gives back the pieces. */
  lemma {:induction false} SplitJoin(parts: seq<string>)
    requires |parts| >= 1 && forall p <- parts :: ' ' !in p
    ensures Split(Join(parts)) == parts
  {
    if |parts| > 1 {
      var rest := parts[1..];
      assert forall p <- rest :: p in parts;
      SplitJoin(rest);
      assert parts[0] in parts;
      assert Join(parts) == parts[0] + " " + Join(rest);
      SplitAfterPiece(parts[0], Join(rest));
      assert [parts[0]] + rest == parts;
    }
  }

  datatype FormattedTime = FormattedTime(time: string, dayDate: string)

  /**
   * `formatTime`: with three or more pieces, the first piece and the rest
   * joined again, which put back together with a space give the original
   * string; otherwise the whole string and no day or date.
   */
  function FormatTime(timeString: string): (r: FormattedTime)
    ensures |Split(timeString)| >= 3 ==>
      && r.time == Split(timeString)[0]
      && ' ' !in r.time
      && r.dayDate == Join(Split(timeString)[1..])
      && r.time + " " + r.dayDate == timeString
    ensures |Split(timeString)| < 3 ==> r == FormattedTime(timeString, "")
  {
    var parts := Split(timeString);
    if |parts| >= 3 then
      JoinSplit(timeString);
      FormattedTime(parts[0], Join(parts[1..]))
    else FormattedTime(timeString, "")
  }
}
