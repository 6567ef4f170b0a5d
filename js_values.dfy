/**
 * The JavaScript values the application receives from JSON payloads and passes
 * around untyped, together with the handful of built-in conversions the core
 * relies on: truthiness, `typeof x === "object"`, property lookup, `String(x)`,
 * `parseInt(s, 10)` and `parseFloat(x)`.
 *
 * Numbers are exact reals: IEEE-754 rounding and the infinities are not
 * modelled, and a NaN result is None.
 */
module JsValues {
  import opened Wrappers

  datatype Value =
    | Undefined
    | Null
    | Bool(b: bool)
    | Num(n: real)
    | Str(s: string)
    | Arr(items: seq<Value>)
    | Obj(fields: map<string, Value>)

  /** JavaScript truthiness (`if (v)`, `v || d`). */
  predicate Truthy(v: Value) {
    match v
    case Undefined => false
    case Null => false
    case Bool(b) => b
    case Num(n) => n != 0.0
    case Str(s) => s != ""
    case Arr(_) => true
    case Obj(_) => true
  }

  /** `v && typeof v === "object"`: arrays and plain objects. */
  predicate IsObjectLike(v: Value) {
    v.Arr? || v.Obj?
  }

  /** `v.hasOwnProperty(key)` for a non-numeric key. */
  predicate HasOwn(v: Value, key: string) {
    v.Obj? && key in v.fields
  }

  /** `v[key]` for a non-numeric key; a missing property reads as undefined. */
  function Field(v: Value, key: string): (r: Value)
    ensures HasOwn(v, key) ==> r == v.fields[key]
    ensures !HasOwn(v, key) ==> r == Undefined
  {
    if HasOwn(v, key) then v.fields[key] else Undefined
  }

  /** `a || b` */
  function Or(a: Value, b: Value): (r: Value)
    ensures Truthy(a) ==> r == a
    ensures !Truthy(a) ==> r == b
  {
    if Truthy(a) then a else b
  }

  // ---------------------------------------------------------------------
  // Decimal digits

  predicate IsDigit(c: char) {
    '0' <= c <= '9'
  }

  predicate AllDigits(s: string) {
    forall i :: 0 <= i < |s| ==> IsDigit(s[i])
  }

  function DigitChar(d: nat): char
    requires d < 10
  {
    "0123456789"[d]
  }

  /** The number a string of decimal digits denotes. */
  function DigitsValue(s: string): nat
    requires AllDigits(s)
  {
    if s == [] then 0
    else DigitsValue(s[..|s| - 1]) * 10 + (s[|s| - 1] as int - '0' as int)
  }

  /** `n.toString()` for a natural number. */
  function NatText(n: nat): (r: string)
    ensures |r| >= 1 && AllDigits(r)
  {
    if n < 10 then [DigitChar(n)] else NatText(n / 10) + [DigitChar(n % 10)]
  }

  /** `i.toString()` for an integer. */
  function IntText(i: int): string {
    if i < 0 then "-" + NatText(-i) else NatText(i)
  }

  /** Reading back what NatText printed gives the number again. */
  lemma {:induction false} NatTextRoundTrip(n: nat)
    ensures DigitsValue(NatText(n)) == n
  {
    DigitCharValue(n % 10);
    if n >= 10 {
      NatTextRoundTrip(n / 10);
      var s := NatText(n);
      assert s[..|s| - 1] == NatText(n / 10) && s[|s| - 1] == DigitChar(n % 10);
    }
  }

  lemma DigitCharValue(d: nat)
    requires d < 10
    ensures DigitChar(d) as int - '0' as int == d
  {
  }

  /** The number of leading decimal digits of s. */
  function LeadingDigits(s: string): (k: nat)
    ensures k <= |s| && AllDigits(s[..k])
    ensures k < |s| ==> !IsDigit(s[k])
  {
    if s == [] || !IsDigit(s[0]) then 0
    else
      var k := 1 + LeadingDigits(s[1..]);
      assert s[..k] == [s[0]] + s[1..][..k - 1];
      k
  }

  lemma {:induction false} LeadingDigitsOfDigits(s: string)
    requires AllDigits(s)
    ensures LeadingDigits(s) == |s|
  {
    if s != [] {
      LeadingDigitsOfDigits(s[1..]);
    }
  }

  /**
   * `parseInt(s, 10)`: the value of the leading digits, or NaN (None) when
   * there are none. Leading white space and a sign are not modelled: the only
   * strings the core parses consist of digits.
   */
  function ParseInt(s: string): Option<int> {
    var k := LeadingDigits(s);
    if k == 0 then None else Some(DigitsValue(s[..k]))
  }

  /** On a string of digits, parseInt is NaN exactly for "" and otherwise its value. */
  lemma ParseIntOfDigits(s: string)
    requires AllDigits(s)
    ensures ParseInt(s).None? <==> s == []
    ensures s != [] ==> ParseInt(s) == Some(DigitsValue(s))
  {
    LeadingDigitsOfDigits(s);
    assert s[..|s|] == s;
  }

  /** parseInt reads back what toString printed. */
  lemma ParseIntOfNatText(n: nat)
    ensures ParseInt(NatText(n)) == Some(n)
  {
    ParseIntOfDigits(NatText(n));
    NatTextRoundTrip(n);
  }

  // ---------------------------------------------------------------------
  // parseFloat

  /**
   * The characters `parseFloat` skips before the number: the white space
   * (tab, vertical tab, form feed, space, no-break space, the byte order
   * mark and the other Unicode space separators) and the line terminators
   * (line feed, carriage return, line and paragraph separators).
   */
  predicate IsSpace(c: char) {
    || c == '\t' || c == '\U{0B}' || c == '\U{0C}' || c == ' ' || c == '\U{A0}' || c == '\U{FEFF}'
    || c == '\U{1680}' || ('\U{2000}' <= c <= '\U{200A}') || c == '\U{202F}' || c == '\U{205F}' || c == '\U{3000}'
    || c == '\n' || c == '\r' || c == '\U{2028}' || c == '\U{2029}'
  }

  function TrimStart(s: string): (r: string)
    ensures |r| <= |s| && (r != [] ==> !IsSpace(r[0]))
  {
    if s != [] && IsSpace(s[0]) then TrimStart(s[1..]) else s
  }

  function Pow10(k: nat): (r: nat)
    ensures r >= 1
  {
    if k == 0 then 1 else 10 * Pow10(k - 1)
  }

  /**
   * The decimal literal `digits [ "." [ digits ] ]` or `"." digits` at the
   * head of s: its value and its length.
   */
  function MantissaPrefix(s: string): (r: Option<(real, nat)>)
    ensures r.Some? ==> 0 < r.value.1 <= |s|
  {
    var k := LeadingDigits(s);
    var whole := DigitsValue(s[..k]) as real;
    if k < |s| && s[k] == '.' then
      var rest := s[k + 1..];
      var f := LeadingDigits(rest);
      if k + f == 0 then None
      else Some((whole + (DigitsValue(rest[..f]) as real) / (Pow10(f) as real), k + 1 + f))
    else if k == 0 then None
    else Some((whole, k))
  }

  /**
   * The exponent `("e" | "E") [ "+" | "-" ] digits` at the head of s, if
   * there is one; an incomplete exponent is not part of the number.
   */
  function ExponentPrefix(s: string): Option<int> {
    if |s| < 2 || (s[0] != 'e' && s[0] != 'E') then None
    else
      var negative := s[1] == '-';
      var digits := if s[1] == '+' || s[1] == '-' then s[2..] else s[1..];
      var k := LeadingDigits(digits);
      if k == 0 then None
      else
        var e: int := DigitsValue(digits[..k]);
        Some(if negative then -e else e)
  }

  /** x × 10^e */
  function Scale(x: real, e: int): real {
    if e >= 0 then x * (Pow10(e) as real) else x / (Pow10(-e) as real)
  }

  /** The unsigned decimal literal with an optional exponent at the head of s. */
  function UnsignedDecimalPrefix(s: string): Option<real> {
    match MantissaPrefix(s)
    case None => None
    case Some((x, n)) =>
      match ExponentPrefix(s[n..])
      case None => Some(x)
      case Some(e) => Some(Scale(x, e))
  }

  /**
   * `parseFloat` of a string: skip leading white space, read an optional sign
   * and the longest decimal literal; NaN (None) when there is none.
   */
  function ParseDecimal(s: string): Option<real> {
    var t := TrimStart(s);
    if t != [] && (t[0] == '-' || t[0] == '+') then
      match UnsignedDecimalPrefix(t[1..])
      case None => None
      case Some(x) => Some(if t[0] == '-' then -x else x)
    else UnsignedDecimalPrefix(t)
  }

  /**
   * `parseFloat(v)`: numbers read as themselves, every other value through
   * its string form; "undefined", "null", "true", "false" and
   * "[object Object]" do not start with a number.
   */
  function ParseFloat(v: Value): (r: Option<real>)
    ensures v.Num? ==> r == Some(v.n)
    ensures v.Str? ==> r == ParseDecimal(v.s)
    ensures v.Arr? ==> r == ParseDecimal(Text(v))
    ensures v.Undefined? || v.Null? || v.Bool? || v.Obj? ==> r == None
  {
    if v.Num? then Some(v.n)
    else if v.Str? || v.Arr? then ParseDecimal(Text(v))
    else
      NoNumberAtHead(Text(v));
      ParseDecimal(Text(v))
  }

  /** A string starting with a letter or a bracket holds no number for parseFloat. */
  lemma NoNumberAtHead(s: string)
    requires s != [] && (('a' <= s[0] <= 'z') || s[0] == '[')
    ensures ParseDecimal(s) == None
  {
    assert TrimStart(s) == s;
    assert LeadingDigits(s) == 0;
  }

  /** parseFloat reads back a printed natural number. */
  lemma ParseDecimalOfNatText(n: nat)
    ensures ParseDecimal(NatText(n)) == Some(n as real)
  {
    var s := NatText(n);
    assert TrimStart(s) == s;
    LeadingDigitsOfDigits(s);
    assert s[..|s|] == s;
    NatTextRoundTrip(n);
  }

  // ---------------------------------------------------------------------
  // String(v), as used by template literals

  /** Up to `fuel` decimal digits of a fraction 0 <= f < 1. */
  function FractionDigits(f: real, fuel: nat): string
    requires 0.0 <= f < 1.0
    decreases fuel
  {
    if fuel == 0 || f == 0.0 then ""
    else
      var d := (f * 10.0).Floor;
      [DigitChar(d)] + FractionDigits(f * 10.0 - d as real, fuel - 1)
  }

  /** `String(n)` for a number written with at most 17 fractional digits. */
  function NumberText(n: real): string {
    var a := if n < 0.0 then -n else n;
    var whole := a.Floor;
    var frac := a - whole as real;
    (if n < 0.0 then "-" else "")
      + NatText(whole)
      + (if frac == 0.0 then "" else "." + FractionDigits(frac, 17))
  }

  /** `String(v)` */
  function Text(v: Value): string
    decreases v
  {
    match v
    case Undefined => "undefined"
    case Null => "null"
    case Bool(b) => if b then "true" else "false"
    case Num(n) => NumberText(n)
    case Str(s) => s
    case Arr(items) => JoinedText(v, items)
    case Obj(_) => "[object Object]"
  }

  /** `items.join(",")`, where null and undefined elements print as "". */
  function JoinedText(ghost parent: Value, items: seq<Value>): string
    requires parent.Arr? && items <= parent.items
    decreases parent, |items|
  {
    if items == [] then ""
    else
      var last := items[|items| - 1];
      var lastText := if last.Undefined? || last.Null? then "" else Text(last);
      if |items| == 1 then lastText
      else JoinedText(parent, items[..|items| - 1]) + "," + lastText
  }
}
