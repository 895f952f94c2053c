/**
 * Parsers for the primitive literals: booleans, null, numbers and quoted
 * strings. A number without a fractional part is an Int64, one with a
 * fractional part a Number; an unterminated string is a required failure at
 * the end of the input.
 */
module Literals {
  import opened Values
  import opened Combinators

  /** What every primitive parser guarantees: a success consumes at least one
      character and ends on a non-blank one; a failure is at or after p. */
  predicate Sound(s: string, p: nat, r: Res<Value>) {
    && (r.Ok? ==> p < r.next <= |s| && !IsBlank(s[r.next - 1]))
    && (r.Fail? ==> p <= r.err.at <= |s|)
  }

  function ParseBoolean(s: string, p: nat): (r: Res<Value>)
    requires p <= |s|
    ensures Sound(s, p, r)
    ensures r.Ok? <==> KeywordAt(s, p, "true") || KeywordAt(s, p, "false")
    ensures r.Ok? ==> r.value == Bool(KeywordAt(s, p, "true"))
    ensures r.Fail? ==> r.err == Expected(p, false, ["boolean"])
  {
    if KeywordAt(s, p, "true") then Ok(Bool(true), p + 4)
    else if KeywordAt(s, p, "false") then Ok(Bool(false), p + 5)
    else Fail(Expected(p, false, ["boolean"]))
  }

  function ParseNull(s: string, p: nat): (r: Res<Value>)
    requires p <= |s|
    ensures Sound(s, p, r)
    ensures r.Ok? <==> KeywordAt(s, p, "null")
    ensures r.Ok? ==> r == Ok(Null, p + 4)
    ensures r.Fail? ==> r.err == Expected(p, false, ["null"])
  {
    if KeywordAt(s, p, "null") then Ok(Null, p + 4) else Fail(Expected(p, false, ["null"]))
  }

  /** The end of the run of digits starting at p. */
  function ScanDigits(s: string, p: nat): (q: nat)
    requires p <= |s|
    ensures p <= q <= |s|
    ensures forall k | p <= k < q :: IsDigit(s[k])
    ensures q == |s| || !IsDigit(s[q])
    decreases |s| - p
  {
    if p < |s| && IsDigit(s[p]) then ScanDigits(s, p + 1) else p
  }

  function Pow10(n: nat): (r: nat)
    ensures r >= 1
  {
    if n == 0 then 1 else 10 * Pow10(n - 1)
  }

  /** `-`? digits (`.` digits)? */
  function ParseNumber(s: string, p: nat): (r: Res<Value>)
    requires p <= |s|
    ensures Sound(s, p, r)
    ensures r.Ok? ==> IsNumeric(r.value) && IsDigit(s[r.next - 1])
    ensures r.Ok? ==> (r.value.Int64? <==> forall k | p <= k < r.next :: s[k] != '.')
    ensures r.Fail? ==> r.err == Expected(p, false, ["number"])
  {
    var neg := p < |s| && s[p] == '-';
    var start := if neg then p + 1 else p;
    var q := ScanDigits(s, start);
    if q == start then Fail(Expected(p, false, ["number"]))
    else
      var whole := DigitsValue(s[start..q]);
      if q + 1 < |s| && s[q] == '.' && IsDigit(s[q + 1]) then
        var q2 := ScanDigits(s, q + 1);
        var frac := DigitsValue(s[q + 1..q2]) as real / Pow10(q2 - q - 1) as real;
        var mag := whole as real + frac;
        Ok(Number(if neg then -mag else mag), q2)
      else
        Ok(Int64(if neg then -(whole as int) else whole as int), q)
  }

  /** A decimal integer followed by something that does not continue the
      number reads back as that Int64. */
  lemma {:induction false} IntegerLiteral(i: int, rest: string)
    requires rest == [] || (!IsDigit(rest[0]) && rest[0] != '.')
    ensures ParseNumber(IntToString(i) + rest, 0) == Ok(Int64(i), |IntToString(i)|)
  {
    var s := IntToString(i) + rest;
    assert Spells(s, 0, IntToString(i)) by {
      forall k | 0 <= k < |IntToString(i)| ensures s[0 + k] == IntToString(i)[k] {
      }
    }
    IntegerAt(s, 0, i);
  }

  /** The same at any offset: an integer spelled at p and not followed by
      a digit or a dot is read as that Int64. */
  lemma {:induction false} IntegerAt(s: string, p: nat, i: int)
    requires Spells(s, p, IntToString(i))
    requires var e := p + |IntToString(i)|; e == |s| || (!IsDigit(s[e]) && s[e] != '.')
    ensures ParseNumber(s, p) == Ok(Int64(i), p + |IntToString(i)|)
  {
    var n: nat := if i < 0 then -i else i;
    var q := SignedDigits(s, p, i < 0, n);
    IntegerRead(s, p, i < 0, q, n);
  }

  /** A sign and the digits of n spelled at p: where the digits run and what
      they are worth. */
  lemma {:induction false} SignedDigits(s: string, p: nat, neg: bool, n: nat) returns (q: nat)
    requires Spells(s, p, (if neg then "-" else "") + NatToString(n))
    requires var e := p + |(if neg then "-" else "") + NatToString(n)|; e == |s| || !IsDigit(s[e])
    ensures var start := if neg then p + 1 else p;
      && q == p + |(if neg then "-" else "") + NatToString(n)| && start < q
      && (p < |s| && s[p] == '-') == neg
      && ScanDigits(s, start) == q && DigitsValue(s[start..q]) == n
  {
    var pre, ds := if neg then "-" else "", NatToString(n);
    SpellsSplit(s, p, pre, ds);
    q := DigitsAt(s, p + |pre|, ds);
    DigitsOfNatToString(n);
    assert s[p + 0] == (pre + ds)[0];
  }

  /** What ParseNumber makes of a signed run of digits with no fraction. */
  lemma {:induction false} IntegerRead(s: string, p: nat, neg: bool, q: nat, n: nat)
    requires p <= |s| && (p < |s| && s[p] == '-') == neg
    requires var start := if neg then p + 1 else p;
      start < q <= |s| && ScanDigits(s, start) == q && DigitsValue(s[start..q]) == n
    requires q == |s| || s[q] != '.'
    ensures ParseNumber(s, p) == Ok(Int64(if neg then -(n as int) else n as int), q)
  {
  }

  /** A decimal `w.f`, with an optional minus sign, reads as the Number
      w + f / 10^|f| when no digit follows it. */
  lemma {:induction false} DecimalAt(s: string, p: nat, neg: bool, w: nat, f: string)
    requires |f| > 0 && forall k | 0 <= k < |f| :: IsDigit(f[k])
    requires Spells(s, p, (if neg then "-" else "") + NatToString(w) + "." + f)
    requires var e := p + |(if neg then "-" else "") + NatToString(w) + "." + f|; e == |s| || !IsDigit(s[e])
    ensures var mag := w as real + DigitsValue(f) as real / Pow10(|f|) as real;
      ParseNumber(s, p) == Ok(Number(if neg then -mag else mag), p + |(if neg then "-" else "") + NatToString(w) + "." + f|)
  {
    var pre, ds := if neg then "-" else "", NatToString(w);
    SpellsSplit(s, p, pre + ds + ".", f);
    SpellsSplit(s, p, pre + ds, ".");
    var q := p + |pre + ds|;
    assert s[q + 0] == "."[0];
    var q0 := SignedDigits(s, p, neg, w);
    var q2 := DigitsAt(s, q + 1, f);
    DecimalRead(s, p, neg, q, w, q2, DigitsValue(f));
  }

  /** What ParseNumber makes of a signed run of digits, a dot and a second
      run of digits. */
  lemma {:induction false} DecimalRead(s: string, p: nat, neg: bool, q: nat, w: nat, q2: nat, f: nat)
    requires p <= |s| && (p < |s| && s[p] == '-') == neg
    requires var start := if neg then p + 1 else p;
      start < q <= |s| && ScanDigits(s, start) == q && DigitsValue(s[start..q]) == w
    requires q + 1 < q2 <= |s| && s[q] == '.' && ScanDigits(s, q + 1) == q2 && DigitsValue(s[q + 1..q2]) == f
    ensures var mag := w as real + f as real / Pow10(q2 - q - 1) as real;
      ParseNumber(s, p) == Ok(Number(if neg then -mag else mag), q2)
  {
    assert IsDigit(s[q + 1]);
  }

  /** Where a letter follows the digits, it is not part of the number:
      `1e3` reads as the Int64 1 and leaves `e3`. */
  lemma {:induction false} NoExponent()
    ensures ParseNumber("1e3", 0) == Ok(Int64(1), 1)
  {
    var s := "1e3";
    ScanDigitsRun(s, 0, 1);
    assert s[0..1] == "1" && "1"[..0] == [];
  }

  /** A spelled run of digits followed by a non-digit is scanned whole, and
      the digits it covers are the run. */
  lemma {:induction false} DigitsAt(s: string, start: nat, ds: string) returns (q: nat)
    requires Spells(s, start, ds) && forall k | 0 <= k < |ds| :: IsDigit(ds[k])
    requires start + |ds| == |s| || !IsDigit(s[start + |ds|])
    ensures q == start + |ds| && ScanDigits(s, start) == q && s[start..q] == ds
  {
    q := start + |ds|;
    assert forall k | start <= k < q :: s[k] == ds[k - start];
    ScanDigitsRun(s, start, q);
    assert s[start..q] == ds;
  }

  lemma {:induction false} ScanDigitsRun(s: string, p: nat, q: nat)
    requires p <= q <= |s|
    requires forall k | p <= k < q :: IsDigit(s[k])
    requires q == |s| || !IsDigit(s[q])
    ensures ScanDigits(s, p) == q
    decreases q - p
  {
    if p < q {
      ScanDigitsRun(s, p + 1, q);
    }
  }

  // ---------------------------------------------------------------------
  // Quoted strings

  /** The character an escape `\c` stands for. */
  function Unescape(c: char): char {
    if c == 'n' then '\n' else if c == 't' then '\t' else if c == 'r' then '\r' else c
  }

  function ParseQuotedString(s: string, p: nat): (r: Res<Value>)
    requires p <= |s|
    ensures Sound(s, p, r)
    ensures r.Ok? ==> r.value.Str? && s[p] == '"' && s[r.next - 1] == '"'
    ensures r.Fail? ==> r.err == Expected(p, false, ["quoted string"])
                        || r.err == Expected(|s|, true, ["end quote"])
    ensures p < |s| && s[p] == '"' ==> r.Ok? || r.err == Expected(|s|, true, ["end quote"])
  {
    if p < |s| && s[p] == '"' then ScanString(s, p + 1, "")
    else Fail(Expected(p, false, ["quoted string"]))
  }

  /** The body of a string after its opening quote, with the characters
      read so far in acc. */
  function ScanString(s: string, q: nat, acc: string): (r: Res<Value>)
    requires 0 < q <= |s|
    ensures r.Ok? ==> r.value.Str? && q < r.next <= |s| && s[r.next - 1] == '"'
    ensures r.Fail? ==> r.err == Expected(|s|, true, ["end quote"])
    decreases |s| - q
  {
    if q == |s| then Fail(Expected(|s|, true, ["end quote"]))
    else if s[q] == '"' then Ok(Str(acc), q + 1)
    else if s[q] == '\\' then
      if q + 1 == |s| then Fail(Expected(|s|, true, ["end quote"]))
      else ScanString(s, q + 2, acc + [Unescape(s[q + 1])])
    else ScanString(s, q + 1, acc + [s[q]])
  }

  /** Writes x as a quoted literal, escaping what would end or alter it. */
  function Quote(x: string): string {
    "\"" + Escape(x) + "\""
  }

  function Escape(x: string): string {
    if x == [] then ""
    else EscapeChar(x[0]) + Escape(x[1..])
  }

  function EscapeChar(c: char): string {
    if c == '"' then "\\\""
    else if c == '\\' then "\\\\"
    else if c == '\n' then "\\n"
    else if c == '\t' then "\\t"
    else if c == '\r' then "\\r"
    else [c]
  }

  /** The input spells w from offset q on. */
  predicate Spells(s: string, q: nat, w: string) {
    q + |w| <= |s| && forall k | 0 <= k < |w| :: s[q + k] == w[k]
  }

  lemma {:induction false} SpellsSplit(s: string, q: nat, u: string, v: string)
    requires Spells(s, q, u + v)
    ensures Spells(s, q, u) && Spells(s, q + |u|, v)
  {
    forall k | 0 <= k < |u| ensures s[q + k] == u[k] {
      assert (u + v)[k] == u[k];
    }
    forall k | 0 <= k < |v| ensures s[q + |u| + k] == v[k] {
      assert (u + v)[|u| + k] == v[k];
      assert s[q + (|u| + k)] == (u + v)[|u| + k];
    }
  }

  /** Reading one escaped character. */
  lemma {:induction false} ScanStep(s: string, q: nat, acc: string, c: char)
    requires 0 < q && Spells(s, q, EscapeChar(c))
    ensures ScanString(s, q, acc) == ScanString(s, q + |EscapeChar(c)|, acc + [c])
  {
    var e := EscapeChar(c);
    assert s[q + 0] == e[0];
    if |e| == 2 {
      assert s[q + 1] == e[1];
    }
  }

  /** Reading an escaped string up to its closing quote gives the string. */
  lemma {:induction false} ScanEscaped(s: string, q: nat, acc: string, x: string)
    requires 0 < q && Spells(s, q, Escape(x)) && q + |Escape(x)| < |s| && s[q + |Escape(x)|] == '"'
    ensures ScanString(s, q, acc) == Ok(Str(acc + x), q + |Escape(x)| + 1)
    decreases |x|
  {
    hide *;
    if x == [] {
      ScanClosing(s, q, acc);
      assert acc + x == acc;
    } else {
      var c := x[0];
      var n := q + |EscapeChar(c)|;
      ScanHead(s, q, acc, x);
      assert n + |Escape(x[1..])| == q + |Escape(x)|;
      ScanEscaped(s, n, acc + [c], x[1..]);
      assert acc + [c] + x[1..] == acc + x;
    }
  }

  /** The closing quote ends the string with what was read. */
  lemma {:induction false} ScanClosing(s: string, q: nat, acc: string)
    requires 0 < q && q + |Escape([])| < |s| && s[q + |Escape([])|] == '"'
    ensures ScanString(s, q, acc) == Ok(Str(acc), q + |Escape([])| + 1)
  {
  }

  /** Reading the first character of an escaped string leaves the rest. */
  lemma {:induction false} ScanHead(s: string, q: nat, acc: string, x: string)
    requires 0 < q && x != [] && Spells(s, q, Escape(x))
    ensures var e := EscapeChar(x[0]);
      && Spells(s, q + |e|, Escape(x[1..])) && |Escape(x)| == |e| + |Escape(x[1..])|
      && ScanString(s, q, acc) == ScanString(s, q + |e|, acc + [x[0]])
  {
    var e := EscapeChar(x[0]);
    var tail := Escape(x[1..]);
    assert Escape(x) == e + tail;
    hide *;
    SpellsSplit(s, q, e, tail);
    ScanStep(s, q, acc, x[0]);
  }

  /** A quoted literal spelled at p reads back as the string it quotes,
      whatever follows it. */
  lemma {:induction false} QuoteAt(s: string, p: nat, x: string)
    requires Spells(s, p, Quote(x))
    ensures p < |s| && s[p] == '"'
    ensures ParseQuotedString(s, p) == Ok(Str(x), p + |Quote(x)|)
  {
    var w := Escape(x);
    SpellsSplit(s, p, "\"" + w, "\"");
    SpellsSplit(s, p, "\"", w);
    assert s[p + 0] == "\""[0];
    assert s[p + 1 + |w| + 0] == "\""[0];
    ScanEscaped(s, p + 1, "", x);
    assert "" + x == x;
  }

  /** Every string can be written as a literal that reads back as itself,
      whatever follows it. */
  lemma {:induction false} QuoteRoundTrip(x: string, rest: string)
    ensures ParseQuotedString(Quote(x) + rest, 0) == Ok(Str(x), |Quote(x)|)
  {
    var s := Quote(x) + rest;
    assert Spells(s, 0, Quote(x)) by {
      forall k | 0 <= k < |Quote(x)| ensures s[0 + k] == Quote(x)[k] {
      }
    }
    QuoteAt(s, 0, x);
  }
}
