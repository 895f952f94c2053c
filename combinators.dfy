/**
 * The position-tracked parsing layer: failures carrying an input offset,
 * the "required" (fatal) flag, the alternation rule that keeps the deepest
 * failure, whitespace and comment skipping, and the rendering of a failure
 * as `line L char C: <message>`.
 */
module Combinators {
  import opened Values

  /** A parse failure at an offset of the input. `Expected` lists what was
      expected there; `required` marks a construct that started matching and
      then broke, which aborts alternation. `Custom` is a semantic rejection
      (an unknown name, a bad argument, a non-string object key). */
  datatype ParseError =
    | Expected(at: nat, required: bool, items: seq<string>)
    | Custom(at: nat, msg: string)

  /** A failure that alternation must not recover from. */
  predicate Fatal(e: ParseError) {
    e.Custom? || e.required
  }

  /** A parse either succeeds with a payload and the offset where the
      unconsumed remainder starts, or fails. */
  datatype Res<+T> = Ok(value: T, next: nat) | Fail(err: ParseError)

  function Max(a: nat, b: nat): nat { if a < b then b else a }

  /** Of two recoverable failures, the one that got further; at the same
      offset two lists of expectations are merged, earlier ones first. */
  function Deeper(a: ParseError, b: ParseError): (e: ParseError)
    ensures e.at == Max(a.at, b.at)
    ensures a.at < b.at ==> e == b
    ensures b.at < a.at ==> e == a
    ensures a.at == b.at && a.Expected? && b.Expected? ==> e == Expected(a.at, false, a.items + b.items)
  {
    if a.at < b.at then b
    else if a.at == b.at && a.Expected? && b.Expected? then Expected(a.at, false, a.items + b.items)
    else a
  }

  /** Ordered alternation of two parsers tried at the same offset. */
  function OneOf<T>(a: Res<T>, b: Res<T>): (r: Res<T>)
    ensures r.Ok? ==> r == a || r == b
    ensures r.Fail? ==> (a.Fail? && r.err.at == a.err.at) || (b.Fail? && r.err.at == b.err.at)
  {
    if a.Ok? || Fatal(a.err) then a
    else if b.Ok? || Fatal(b.err) then b
    else Fail(Deeper(a.err, b.err))
  }

  /** The alternation rule: a success of the first alternative wins; so does
      a fatal failure of the first; otherwise the second decides unless both
      failed recoverably, in which case the deeper failure is kept. */
  lemma {:induction false} OneOfSemantics<T>(a: Res<T>, b: Res<T>)
    ensures a.Ok? ==> OneOf(a, b) == a
    ensures a.Fail? && Fatal(a.err) ==> OneOf(a, b) == a
    ensures a.Fail? && !Fatal(a.err) && (b.Ok? || Fatal(b.err)) ==> OneOf(a, b) == b
    ensures a.Fail? && b.Fail? && !Fatal(a.err) && !Fatal(b.err) ==>
              OneOf(a, b).Fail? && !Fatal(OneOf(a, b).err) && OneOf(a, b).err.at == Max(a.err.at, b.err.at)
  {
  }

  /** Turns a recoverable failure into a required one (seen after a
      delimiter or an opening token, where something must follow). */
  function Required(e: ParseError): (r: ParseError)
    ensures r.at == e.at && Fatal(r)
    ensures e.Expected? ==> r == Expected(e.at, true, e.items)
    ensures e.Custom? ==> r == e
  {
    match e
    case Expected(at, _, items) => Expected(at, true, items)
    case Custom(_, _) => e
  }

  /** Names what a parser expects: a recoverable failure right where the
      parser started is reported as expecting `item`. */
  function Expect<T>(r: Res<T>, p: nat, item: string): (r': Res<T>)
    ensures r.Ok? ==> r' == r
    ensures r.Fail? && !Fatal(r.err) && r.err.at == p ==> r' == Fail(Expected(p, false, [item]))
    ensures r.Fail? && (Fatal(r.err) || r.err.at != p) ==> r' == r
    ensures r'.Ok? <==> r.Ok?
    ensures r'.Fail? ==> r'.err.at == r.err.at && (Fatal(r'.err) <==> Fatal(r.err))
  {
    if r.Fail? && !Fatal(r.err) && r.err.at == p then Fail(Expected(p, false, [item])) else r
  }

  /** Naming what a parser expects twice names it once. */
  lemma {:induction false} ExpectIdempotent<T>(r: Res<T>, p: nat, item: string)
    ensures Expect(Expect(r, p, item), p, item) == Expect(r, p, item)
  {
  }

  // ---------------------------------------------------------------------
  // Characters and skipping

  predicate IsSpace(c: char) { c == ' ' || c == '\t' }

  predicate IsBlank(c: char) { IsSpace(c) || c == '\n' || c == '\r' }

  predicate IsIdentChar(c: char) {
    ('a' <= c <= 'z') || ('A' <= c <= 'Z') || IsDigit(c) || c == '_'
  }

  /** Skips spaces and tabs. */
  function SkipSpaces(s: string, p: nat): (q: nat)
    requires p <= |s|
    ensures p <= q <= |s|
    ensures q == |s| || !IsSpace(s[q])
    decreases |s| - p
  {
    if p < |s| && IsSpace(s[p]) then SkipSpaces(s, p + 1) else p
  }

  /** Only spaces and tabs are skipped. */
  lemma {:induction false} SkipSpacesSkips(s: string, p: nat)
    requires p <= |s|
    ensures forall k | p <= k < SkipSpaces(s, p) :: IsSpace(s[k])
    decreases |s| - p
  {
    if p < |s| && IsSpace(s[p]) {
      SkipSpacesSkips(s, p + 1);
    }
  }

  /** Skips spaces, tabs and line breaks. */
  function SkipBlank(s: string, p: nat): (q: nat)
    requires p <= |s|
    ensures p <= q <= |s|
    ensures q == |s| || !IsBlank(s[q])
    decreases |s| - p
  {
    if p < |s| && IsBlank(s[p]) then SkipBlank(s, p + 1) else p
  }

  lemma {:induction false} SkipBlankSkips(s: string, p: nat)
    requires p <= |s|
    ensures forall k | p <= k < SkipBlank(s, p) :: IsBlank(s[k])
    decreases |s| - p
  {
    if p < |s| && IsBlank(s[p]) {
      SkipBlankSkips(s, p + 1);
    }
  }

  /** The offset of the line break ending the line that contains p, or the
      end of the input. */
  function LineEnd(s: string, p: nat): (q: nat)
    requires p <= |s|
    ensures p <= q <= |s|
    ensures q == |s| || s[q] == '\n'
    decreases |s| - p
  {
    if p < |s| && s[p] != '\n' then LineEnd(s, p + 1) else p
  }

  lemma {:induction false} LineEndStaysOnLine(s: string, p: nat)
    requires p <= |s|
    ensures forall k | p <= k < LineEnd(s, p) :: s[k] != '\n'
    decreases |s| - p
  {
    if p < |s| && s[p] != '\n' {
      LineEndStaysOnLine(s, p + 1);
    }
  }

  /** Skips blanks and `#` comments, which run to the end of their line. */
  function SkipBlankAndComments(s: string, p: nat): (q: nat)
    requires p <= |s|
    ensures p <= q <= |s|
    ensures q == |s| || (!IsBlank(s[q]) && s[q] != '#')
    decreases |s| - p
  {
    var q := SkipBlank(s, p);
    if q < |s| && s[q] == '#' then SkipBlankAndComments(s, LineEnd(s, q + 1)) else q
  }

  /** Everything skipped is a blank or lies inside a comment. */
  lemma {:induction false} SkipBlankAndCommentsSkips(s: string, p: nat)
    requires p <= |s|
    ensures forall k | p <= k < SkipBlankAndComments(s, p) :: IsBlank(s[k]) || InComment(s, k)
    decreases |s| - p
  {
    var q := SkipBlank(s, p);
    SkipBlankSkips(s, p);
    if q < |s| && s[q] == '#' {
      var e := LineEnd(s, q + 1);
      var r := SkipBlankAndComments(s, e);
      assert SkipBlankAndComments(s, p) == r;
      LineEndStaysOnLine(s, q + 1);
      CommentRun(s, q, e);
      SkipBlankAndCommentsSkips(s, e);
      forall k | p <= k < r ensures IsBlank(s[k]) || InComment(s, k) {
        if k < q {
        } else if k < e {
        }
      }
    }
  }

  /** A `#` and the rest of its line form a comment. */
  lemma {:induction false} CommentRun(s: string, h: nat, e: nat)
    requires h < e <= |s| && s[h] == '#'
    requires forall j | h < j < e :: s[j] != '\n'
    ensures forall k | h <= k < e :: InComment(s, k)
  {
    forall k | h <= k < e ensures InComment(s, k) {
      assert forall j | h < j <= k :: s[j] != '\n';
    }
  }

  /** Offset k lies in a comment: some `#` at or before it starts one that
      no line break has ended yet. */
  ghost predicate InComment(s: string, k: nat)
    requires k < |s|
  {
    exists h | 0 <= h <= k :: s[h] == '#' && forall j | h < j <= k :: s[j] != '\n'
  }

  /** The end of the identifier (letters, digits, `_`) starting at p. */
  function ScanIdent(s: string, p: nat): (q: nat)
    requires p <= |s|
    ensures p <= q <= |s|
    ensures q == |s| || !IsIdentChar(s[q])
    ensures q > p ==> IsIdentChar(s[q - 1])
    decreases |s| - p
  {
    if p < |s| && IsIdentChar(s[p]) then ScanIdent(s, p + 1) else p
  }

  lemma {:induction false} ScanIdentChars(s: string, p: nat)
    requires p <= |s|
    ensures forall k | p <= k < ScanIdent(s, p) :: IsIdentChar(s[k])
    decreases |s| - p
  {
    if p < |s| && IsIdentChar(s[p]) {
      ScanIdentChars(s, p + 1);
    }
  }

  /** The input has the word w at p, not followed by another identifier
      character. */
  predicate KeywordAt(s: string, p: nat, w: string) {
    p + |w| <= |s| && s[p..p + |w|] == w && (p + |w| == |s| || !IsIdentChar(s[p + |w|]))
  }

  // ---------------------------------------------------------------------
  // Error rendering

  /** "a", "a or b", "a, b, or c". */
  function JoinOr(items: seq<string>): string {
    if |items| == 0 then ""
    else if |items| == 1 then items[0]
    else if |items| == 2 then items[0] + " or " + items[1]
    else items[0] + ", " + JoinOrTail(items[1..])
  }

  function JoinOrTail(items: seq<string>): string
    requires |items| >= 2
    decreases |items|
  {
    if |items| == 2 then items[0] + ", or " + items[1]
    else items[0] + ", " + JoinOrTail(items[1..])
  }

  /** The first item comes first and the last is introduced by " or ". */
  lemma {:induction false} JoinOrEnds(items: seq<string>)
    requires |items| >= 2
    ensures var j, z := JoinOr(items), " or " + items[|items| - 1];
      && |items[0]| + |z| <= |j| && j[..|items[0]|] == items[0] && j[|j| - |z|..] == z
  {
    var last := items[|items| - 1];
    var z := " or " + last;
    var j := JoinOr(items);
    if |items| == 2 {
      assert j == items[0] + z;
      assert j[|j| - |z|..] == z;
    } else {
      var tail := JoinOrTail(items[1..]);
      JoinOrTailEnds(items[1..]);
      assert items[1..][|items[1..]| - 1] == last;
      assert j == items[0] + (", " + tail);
      assert j[|j| - |z|..] == tail[|tail| - |z|..];
    }
  }

  lemma {:induction false} JoinOrTailEnds(items: seq<string>)
    requires |items| >= 2
    ensures var j, z := JoinOrTail(items), " or " + items[|items| - 1];
      |z| <= |j| && j[|j| - |z|..] == z
    decreases |items|
  {
    var last := items[|items| - 1];
    var z := " or " + last;
    var j := JoinOrTail(items);
    if |items| == 2 {
      assert j == (items[0] + ",") + z;
      assert j[|j| - |z|..] == z;
    } else {
      var tail := JoinOrTail(items[1..]);
      JoinOrTailEnds(items[1..]);
      assert items[1..][|items[1..]| - 1] == last;
      assert j == (items[0] + ", ") + tail;
      assert j[|j| - |z|..] == tail[|tail| - |z|..];
    }
  }

  function Message(e: ParseError): string {
    match e
    case Expected(_, required, items) => (if required then "required: " else "") + "expected " + JoinOr(items)
    case Custom(_, msg) => msg
  }

  /** The number of line breaks among the first n characters. */
  function NewlinesBefore(s: string, n: nat): nat
    requires n <= |s|
  {
    if n == 0 then 0 else NewlinesBefore(s, n - 1) + (if s[n - 1] == '\n' then 1 else 0)
  }

  /** The 1-based line and character of an offset. */
  function LineChar(s: string, off: nat): (lc: (nat, nat))
    requires off <= |s|
    ensures lc.0 == 1 + NewlinesBefore(s, off)
    ensures lc.1 >= 1 && lc.1 <= off + 1
    ensures off >= lc.1 ==> s[off - lc.1] == '\n'
    ensures forall k | off - lc.1 < k < off && k >= 0 :: s[k] != '\n'
  {
    if off == 0 then (1, 1)
    else
      var (l, c) := LineChar(s, off - 1);
      if s[off - 1] == '\n' then (l + 1, 1) else (l, c + 1)
  }

  /** On the first line the character is the offset plus one. */
  lemma {:induction false} FirstLineChar(s: string, off: nat)
    requires off <= |s|
    requires forall k | 0 <= k < off :: s[k] != '\n'
    ensures LineChar(s, off) == (1, off + 1)
  {
    if off > 0 {
      FirstLineChar(s, off - 1);
    }
  }

  /** A failure on the first line is reported at the offset plus one; one
      past the end of the input is reported at the end. */
  lemma {:induction false} ErrorOnFirstLine(e: ParseError, input: string)
    requires forall k | 0 <= k < |input| && k < e.at :: input[k] != '\n'
    ensures var off := if e.at <= |input| then e.at else |input|;
      ErrorAtPosition(e, input) == "line 1 char " + NatToString(off + 1) + ": " + Message(e)
  {
    var off := if e.at <= |input| then e.at else |input|;
    FirstLineChar(input, off);
    OneDigit();
    var lc := LineChar(input, off);
    assert ErrorAtPosition(e, input)
      == "line " + NatToString(lc.0) + " char " + NatToString(lc.1) + ": " + Message(e);
  }

  lemma {:induction false} OneDigit()
    ensures NatToString(1) == "1"
  {
  }

  /** `line L char C: <message>` for a failure against the input it came from. */
  function ErrorAtPosition(e: ParseError, input: string): string {
    var off := if e.at <= |input| then e.at else |input|;
    var (line, ch) := LineChar(input, off);
    "line " + NatToString(line) + " char " + NatToString(ch) + ": " + Message(e)
  }
}
