/**
 * The dynamic value model that flows through literal construction and
 * evaluation: a closed tagged union, together with the helpers that name a
 * value's kind and render it inside error messages.
 */
module Values {

  /** Int64 carries an exact integer, Number an exact real standing for the
      source's float64 (IEEE rounding is not modelled). */
  datatype Value =
    | Null
    | Bool(b: bool)
    | Int64(i: int)
    | Number(r: real)
    | Str(s: string)
    | Array(elems: seq<Value>)
    | Object(fields: map<string, Value>)

  /** The kind name used in "received <kind>" and "found <kind>" messages. */
  function KindName(v: Value): string {
    match v
    case Null => "null"
    case Bool(_) => "bool"
    case Int64(_) => "int64"
    case Number(_) => "float64"
    case Str(_) => "string"
    case Array(_) => "array"
    case Object(_) => "object"
  }

  /** The kind an error names tells which kind of value it was. */
  lemma {:induction false} KindNameTellsKind(a: Value, b: Value)
    requires KindName(a) == KindName(b)
    ensures a.Null? == b.Null? && a.Bool? == b.Bool? && a.Int64? == b.Int64? && a.Number? == b.Number?
    ensures a.Str? == b.Str? && a.Array? == b.Array? && a.Object? == b.Object?
  {
  }

  predicate IsNumeric(v: Value) { v.Int64? || v.Number? }

  /** The numeric content of an Int64 or a Number. */
  function AsReal(v: Value): real
    requires IsNumeric(v)
  {
    if v.Int64? then v.i as real else v.r
  }

  // ---------------------------------------------------------------------
  // Decimal digits

  predicate IsDigit(c: char) { '0' <= c <= '9' }

  function DigitChar(d: nat): (c: char)
    requires d < 10
    ensures IsDigit(c) && (c as int) - ('0' as int) == d
  {
    (('0' as int) + d) as char
  }

  /** The value of a string of decimal digits. */
  function DigitsValue(ds: string): (n: nat)
    requires forall k | 0 <= k < |ds| :: IsDigit(ds[k])
    decreases |ds|
  {
    if ds == [] then 0
    else
      var last := ds[|ds| - 1];
      assert IsDigit(last);
      DigitsValue(ds[..|ds| - 1]) * 10 + ((last as int) - ('0' as int))
  }

  /** Decimal rendering of a natural number, without leading zeros. */
  function NatToString(n: nat): (r: string)
    ensures |r| > 0
    ensures forall k | 0 <= k < |r| :: IsDigit(r[k])
    decreases n
  {
    if n < 10 then [DigitChar(n)] else NatToString(n / 10) + [DigitChar(n % 10)]
  }

  /** Reading back the digits NatToString writes gives the number again. */
  lemma {:induction false} DigitsOfNatToString(n: nat)
    ensures DigitsValue(NatToString(n)) == n
    decreases n
  {
    var r := NatToString(n);
    if n >= 10 {
      DigitsOfNatToString(n / 10);
      assert r[..|r| - 1] == NatToString(n / 10);
    }
  }

  function IntToString(i: int): (r: string)
    ensures |r| > 0
  {
    if i < 0 then "-" + NatToString(-i) else NatToString(i)
  }

  function PadZeros(ds: string, width: nat): (r: string)
    ensures |r| >= width && |r| >= |ds|
    decreases width - |ds|
  {
    if |ds| >= width then ds else PadZeros("0" + ds, width)
  }

  /** A real rendered with its integral part and, when it is not integral,
      six fractional digits (truncated). */
  function RealToString(r: real): string {
    if r < 0.0 then "-" + UnsignedRealToString(-r) else UnsignedRealToString(r)
  }

  function UnsignedRealToString(r: real): string
    requires r >= 0.0
  {
    var whole := r.Floor;
    if whole as real == r then NatToString(whole)
    else
      var micros := ((r - whole as real) * 1000000.0).Floor;
      NatToString(whole) + "." + PadZeros(NatToString(micros), 6)
  }

  /** How a value is shown after "found <kind>: ". A string is shown raw;
      arrays and objects are shown by kind only. */
  function Repr(v: Value): string {
    match v
    case Null => "null"
    case Bool(b) => if b then "true" else "false"
    case Int64(i) => IntToString(i)
    case Number(r) => RealToString(r)
    case Str(s) => s
    case Array(_) => "array"
    case Object(_) => "object"
  }

  /** The one helper for coercion failures, shared by arithmetic, argument
      checking and path traversal. */
  function ExpectedValueError(kind: string, v: Value): string {
    "expected " + kind + " value, found " + KindName(v) + ": " + Repr(v)
  }

  /** Equality used by `==`, `!=` and match patterns: numbers compare by
      value whichever of Int64 and Number they are; everything else compares
      structurally. */
  predicate ValueEq(a: Value, b: Value) {
    if IsNumeric(a) && IsNumeric(b) then AsReal(a) == AsReal(b) else a == b
  }

  /** Lexicographic order on strings, by character code. */
  predicate StrLess(a: string, b: string)
    decreases |a|
  {
    if a == [] then b != []
    else if b == [] then false
    else if a[0] != b[0] then a[0] < b[0]
    else StrLess(a[1..], b[1..])
  }

  function UpperChar(c: char): char {
    if 'a' <= c <= 'z' then (c as int - 32) as char else c
  }

  /** ASCII upper-casing, character by character. */
  function Upper(s: string): (r: string)
    ensures |r| == |s|
    ensures forall k | 0 <= k < |s| :: r[k] == UpperChar(s[k])
  {
    seq(|s|, k requires 0 <= k < |s| => UpperChar(s[k]))
  }
}
