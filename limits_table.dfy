/**
 * The limits table of the query parser: for each input, the query read and
 * the remainder left unparsed after it. Inputs are written as their pieces
 * joined, so that each piece's characters are looked up on their own.
 */
module LimitsTable {
  import opened Wrappers
  import opened Values
  import opened Ast
  import opened Registry
  import opened Combinators
  import opened Literals
  import opened QueryParser
  import opened ParserSteps
  import opened ParserTerms
  import opened ParserFailures
  import opened TableText

  const JsonFooText := "json(\"foo\")"

  const MetaBarText := "meta(\"bar\")"

  const JsonPlusMeta := BinOp(Add, JsonFoo, MetaBar)

  const FooPath := Path(["foo"])

  const FooBarPath := Path(["foo", "bar"])

  // ---------------------------------------------------------------------
  // What the rows share

  lemma {:induction false} JsonFooChars(s: string, p: nat)
    requires IsAt(s, p, JsonFooText)
    ensures p + 11 <= |s| && s[p] == 'j' && s[p + 1] == 's' && s[p + 2] == 'o' && s[p + 3] == 'n'
    ensures s[p + 4] == '(' && s[p + 5] == '"' && s[p + 6] == 'f' && s[p + 7] == 'o' && s[p + 8] == 'o'
    ensures s[p + 9] == '"' && s[p + 10] == ')'
  {
    var w := JsonFooText;
    CharOf(s, p, w, 0); CharOf(s, p, w, 1); CharOf(s, p, w, 2); CharOf(s, p, w, 3);
    CharOf(s, p, w, 4); CharOf(s, p, w, 5); CharOf(s, p, w, 6); CharOf(s, p, w, 7);
    CharOf(s, p, w, 8); CharOf(s, p, w, 9); CharOf(s, p, w, 10);
  }

  lemma {:induction false} MetaBarChars(s: string, p: nat)
    requires IsAt(s, p, MetaBarText)
    ensures p + 11 <= |s| && s[p] == 'm' && s[p + 1] == 'e' && s[p + 2] == 't' && s[p + 3] == 'a'
    ensures s[p + 4] == '(' && s[p + 5] == '"' && s[p + 6] == 'b' && s[p + 7] == 'a' && s[p + 8] == 'r'
    ensures s[p + 9] == '"' && s[p + 10] == ')'
  {
    var w := MetaBarText;
    CharOf(s, p, w, 0); CharOf(s, p, w, 1); CharOf(s, p, w, 2); CharOf(s, p, w, 3);
    CharOf(s, p, w, 4); CharOf(s, p, w, 5); CharOf(s, p, w, 6); CharOf(s, p, w, 7);
    CharOf(s, p, w, 8); CharOf(s, p, w, 9); CharOf(s, p, w, 10);
  }

  /** `json("foo")` from p to n, not followed by a dot. */
  lemma {:induction false} JsonFooOperand(s: string, p: nat, n: nat)
    requires IsAt(s, p, JsonFooText) && n == p + 11 && (n == |s| || s[n] != '.')
    ensures ParseOperand(s, p, false) == Ok(JsonFoo, n)
  {
    JsonFooChars(s, p);
    var e, b, r := p + 4, p + 6, p + 9;
    JsonAt(s, p, e);
    FooAt(s, b, r);
    StringOperand(s, p, "json", "foo", n, false);
  }

  /** `meta("bar")` from p to n, not followed by a dot. */
  lemma {:induction false} MetaBarOperand(s: string, p: nat, n: nat)
    requires IsAt(s, p, MetaBarText) && n == p + 11 && (n == |s| || s[n] != '.')
    ensures ParseOperand(s, p, false) == Ok(MetaBar, n)
  {
    MetaBarChars(s, p);
    var e, b, r := p + 4, p + 6, p + 9;
    MetaAt(s, p, e);
    BarAt(s, b, r);
    StringOperand(s, p, "meta", "bar", n, false);
  }

  /** `json("foo")`, a `+` from a to c, `meta("bar")` from b to m, and no
      operator after it: the sum is read and the rest is left. */
  lemma {:induction false} SumThenStop(s: string, q: nat, n: nat, a: nat, c: nat, b: nat, m: nat)
    requires SkipBlankAndComments(s, 0) == q && ParseOperand(s, q, false) == Ok(JsonFoo, n)
    requires n <= |s| && SkipSpaces(s, n) == a && c == a + 1 && OperatorAt(s, a) == Some((Add, 1))
    requires SkipBlankAndComments(s, c) == b && ParseOperand(s, b, false) == Ok(MetaBar, m)
    requires OperatorAt(s, SkipSpaces(s, m)).None?
    ensures Parse(s) == Parsed(Some(JsonPlusMeta), s[m..], None)
  {
    ChainOfOne(s, false, n, a, Add, c, b, MetaBar, m);
    BinaryQuery(s, false, q, JsonFoo, n, MetaBar, Add, m);
  }

  /** `json("foo")` at the start and no operator after it. */
  lemma {:induction false} CallThenStop(s: string, n: nat)
    requires SkipBlankAndComments(s, 0) == 0 && ParseOperand(s, 0, false) == Ok(JsonFoo, n)
    requires OperatorAt(s, SkipSpaces(s, n)).None?
    ensures Parse(s) == Parsed(Some(JsonFoo), s[n..], None)
  {
    SingleQuery(s, false, 0, JsonFoo, n);
  }

  // ---------------------------------------------------------------------
  // `json("foo") + meta("bar")`, wherever it sits in the input.

  const NothingInput := JsonFooText + " + " + MetaBarText

  lemma {:induction false} NothingPieces(s: string, p: nat)
    requires IsAt(s, p, NothingInput)
    ensures IsAt(s, p, JsonFooText) && IsAt(s, p + 11, " + ") && IsAt(s, p + 14, MetaBarText)
  {
    Split(s, p, JsonFooText + " + ", MetaBarText);
    Split(s, p, JsonFooText, " + ");
  }

  lemma {:induction false} NothingOperands(s: string, p: nat, m: nat)
    requires IsAt(s, p, NothingInput) && m == p + 25 && (m == |s| || s[m] != '.')
    ensures ParseOperand(s, p, false) == Ok(JsonFoo, p + 11)
    ensures ParseOperand(s, p + 14, false) == Ok(MetaBar, m)
  {
    NothingPieces(s, p);
    var n, a, c, b := p + 11, p + 12, p + 13, p + 14;
    CharOf(s, n, " + ", 0);
    JsonFooOperand(s, p, n);
    MetaBarOperand(s, b, m);
  }

  lemma {:induction false} NothingPlus(s: string, p: nat)
    requires IsAt(s, p, NothingInput)
    ensures SkipSpaces(s, p + 11) == p + 12 && OperatorAt(s, p + 12) == Some((Add, 1))
    ensures SkipBlankAndComments(s, p + 13) == p + 14
  {
    NothingPieces(s, p);
    var n, a, c, b := p + 11, p + 12, p + 13, p + 14;
    CharOf(s, n, " + ", 0); CharOf(s, n, " + ", 1); CharOf(s, n, " + ", 2);
    MetaBarChars(s, b);
    SpacesRun(s, n, a);
    SpacesRun(s, c, b);
  }

  /** The sum read from offset q when only blanks come before it and no
      operator after it. */
  lemma {:induction false} NothingAt(s: string, q: nat, m: nat)
    requires IsAt(s, q, NothingInput) && m == q + 25 && SkipBlankAndComments(s, 0) == q
    requires m == |s| || (s[m] != '.' && OperatorAt(s, SkipSpaces(s, m)).None?)
    ensures Parse(s) == Parsed(Some(JsonPlusMeta), s[m..], None)
  {
    NothingOperands(s, q, m);
    NothingPlus(s, q);
    var n, a, c, b := q + 11, q + 12, q + 13, q + 14;
    SumThenStop(s, q, n, a, c, b, m);
  }

  lemma {:induction false} NothingStart(s: string)
    requires IsAt(s, 0, NothingInput)
    ensures SkipBlankAndComments(s, 0) == 0
  {
    NothingPieces(s, 0);
    JsonFooChars(s, 0);
    SkipNothing(s, 0);
  }

  /** The whole input is one sum and nothing is left. */
  lemma {:induction false} Nothing(s: string)
    requires Is(s, NothingInput)
    ensures Parse(s) == Parsed(Some(JsonPlusMeta), "", None)
  {
    Whole(s, NothingInput);
    NothingStart(s);
    NothingAt(s, 0, 25);
  }

  // ---------------------------------------------------------------------
  // `   json("foo") + meta("bar")`: leading blanks are skipped.

  const SpaceBeforeInput := "   " + NothingInput

  lemma {:induction false} SpaceBeforeStart(s: string)
    requires Is(s, SpaceBeforeInput)
    ensures IsAt(s, 3, NothingInput) && SkipBlankAndComments(s, 0) == 3 && |s| == 28
  {
    Whole(s, SpaceBeforeInput);
    Split(s, 0, "   ", NothingInput);
    CharOf(s, 0, "   ", 0); CharOf(s, 0, "   ", 1); CharOf(s, 0, "   ", 2);
    NothingPieces(s, 3);
    JsonFooChars(s, 3);
    SpacesRun(s, 0, 3);
  }

  /** The sum after the blanks is read and nothing is left. */
  lemma {:induction false} SpaceBefore(s: string)
    requires Is(s, SpaceBeforeInput)
    ensures Parse(s) == Parsed(Some(JsonPlusMeta), "", None)
  {
    SpaceBeforeStart(s);
    NothingAt(s, 3, 28);
  }

  // ---------------------------------------------------------------------
  // `   json("foo")   +    meta("bar")`: runs of blanks around the operator.

  const SpaceBefore2Input := "   " + JsonFooText + "   +    " + MetaBarText

  lemma {:induction false} SpaceBefore2Pieces(s: string)
    requires Is(s, SpaceBefore2Input)
    ensures |s| == 33 && IsAt(s, 0, "   ") && IsAt(s, 3, JsonFooText) && IsAt(s, 14, "   +    ") && IsAt(s, 22, MetaBarText)
  {
    Whole(s, SpaceBefore2Input);
    Split(s, 0, "   " + JsonFooText + "   +    ", MetaBarText);
    Split(s, 0, "   " + JsonFooText, "   +    ");
    Split(s, 0, "   ", JsonFooText);
  }

  lemma {:induction false} SpaceBefore2Blanks(s: string)
    requires Is(s, SpaceBefore2Input)
    ensures SkipBlankAndComments(s, 0) == 3 && SkipSpaces(s, 14) == 17
    ensures OperatorAt(s, 17) == Some((Add, 1)) && SkipBlankAndComments(s, 18) == 22
  {
    SpaceBefore2Pieces(s);
    SpaceBefore2Lead(s);
    SpaceBefore2Gap(s);
  }

  lemma {:induction false} SpaceBefore2Lead(s: string)
    requires |s| == 33 && IsAt(s, 0, "   ") && IsAt(s, 3, JsonFooText)
    ensures SkipBlankAndComments(s, 0) == 3
  {
    CharOf(s, 0, "   ", 0); CharOf(s, 0, "   ", 1); CharOf(s, 0, "   ", 2);
    CharOf(s, 3, JsonFooText, 0);
    SpacesRun(s, 0, 3);
  }

  lemma {:induction false} SpaceBefore2Gap(s: string)
    requires |s| == 33 && IsAt(s, 14, "   +    ") && IsAt(s, 22, MetaBarText)
    ensures SkipSpaces(s, 14) == 17 && OperatorAt(s, 17) == Some((Add, 1)) && SkipBlankAndComments(s, 18) == 22
  {
    var w := "   +    ";
    CharOf(s, 14, w, 0); CharOf(s, 14, w, 1); CharOf(s, 14, w, 2); CharOf(s, 14, w, 3);
    CharOf(s, 14, w, 4); CharOf(s, 14, w, 5); CharOf(s, 14, w, 6); CharOf(s, 14, w, 7);
    CharOf(s, 22, MetaBarText, 0);
    SpacesRun(s, 14, 17);
    SpacesRun(s, 18, 22);
  }

  lemma {:induction false} SpaceBefore2Operands(s: string)
    requires Is(s, SpaceBefore2Input)
    ensures ParseOperand(s, 3, false) == Ok(JsonFoo, 14) && ParseOperand(s, 22, false) == Ok(MetaBar, 33)
  {
    SpaceBefore2Pieces(s);
    CharOf(s, 14, "   +    ", 0);
    JsonFooOperand(s, 3, 14);
    MetaBarOperand(s, 22, 33);
  }

  /** Blanks on both sides of the operator are skipped. */
  lemma {:induction false} SpaceBefore2(s: string)
    requires Is(s, SpaceBefore2Input)
    ensures Parse(s) == Parsed(Some(JsonPlusMeta), "", None)
  {
    SpaceBefore2Pieces(s);
    SpaceBefore2Blanks(s);
    SpaceBefore2Operands(s);
    SumThenStop(s, 3, 14, 17, 18, 22, 33);
  }

  // ---------------------------------------------------------------------
  // The sum followed by some unparsed text: only spaces are skipped before
  // a possible operator, and what follows them is left with the spaces.

  /** `json("foo") + meta("bar")` and then the text t, which starts with
      spaces up to its k-th character, where no operator is spelled. */
  lemma {:induction false} SumThenText(s: string, t: string, k: nat)
    requires Is(s, NothingInput + t) && k < |t| && !IsBlank(t[k])
    requires forall i | 0 <= i < k :: IsSpace(t[i])
    requires OperatorAt(t, k).None? && t[0] != '.'
    ensures Parse(s) == Parsed(Some(JsonPlusMeta), t, None)
  {
    Whole(s, NothingInput + t);
    Split(s, 0, NothingInput, t);
    NothingStart(s);
    forall i | 25 <= i < 25 + k ensures IsSpace(s[i]) {
      CharOf(s, 25, t, i - 25);
    }
    CharOf(s, 25, t, k);
    SpacesRun(s, 25, 25 + k);
    OperatorLocal(s, 25, t, k);
    CharOf(s, 25, t, 0);
    assert SkipSpaces(s, 25) == 25 + k && s[25] != '.';
    NothingAt(s, 0, 25);
    RestIs(s, 25, t);
  }

  /** Whether an operator is spelled at an offset depends only on the
      characters there. */
  lemma {:induction false} OperatorLocal(s: string, p: nat, t: string, k: nat)
    requires IsAt(s, p, t) && k < |t| && p + |t| == |s|
    ensures OperatorAt(s, p + k) == OperatorAt(t, k)
  {
    CharOf(s, p, t, k);
    if k + 1 < |t| {
      CharOf(s, p, t, k + 1);
    }
  }

  /** `json("foo") + meta("bar") # Here's a comment`: a trailing comment is
      left with the blank before it. */
  const UnfinishedCommentInput := NothingInput + " # Here's a comment"

  lemma {:induction false} UnfinishedComment(s: string)
    requires Is(s, UnfinishedCommentInput)
    ensures Parse(s) == Parsed(Some(JsonPlusMeta), " # Here's a comment", None)
  {
    SumThenText(s, " # Here's a comment", 1);
  }

  /** `json("foo") + meta("bar") and this`: a word is not an operator. */
  const ExtraText2Input := NothingInput + " and this"

  lemma {:induction false} ExtraText2(s: string)
    requires Is(s, ExtraText2Input)
    ensures Parse(s) == Parsed(Some(JsonPlusMeta), " and this", None)
  {
    SumThenText(s, " and this", 1);
  }

  // ---------------------------------------------------------------------
  // One call followed by text that does not continue the query.

  /** `json("foo")` and then the text t: spaces up to its k-th character,
      where no operator is spelled. */
  lemma {:induction false} CallThenText(s: string, t: string, k: nat)
    requires Is(s, JsonFooText + t) && k < |t| && !IsBlank(t[k])
    requires forall i | 0 <= i < k :: IsSpace(t[i])
    requires OperatorAt(t, k).None? && t[0] != '.'
    ensures Parse(s) == Parsed(Some(JsonFoo), t, None)
  {
    Whole(s, JsonFooText + t);
    Split(s, 0, JsonFooText, t);
    RestIs(s, 11, t);
    TextGap(s, 11, t, k);
    JsonFooOpens(s);
    CallThenStop(s, 11);
  }

  /** The text t closing the input from p: spaces up to its k-th character,
      where no operator is spelled. */
  lemma {:induction false} TextGap(s: string, p: nat, t: string, k: nat)
    requires IsAt(s, p, t) && p + |t| == |s| && k < |t| && !IsBlank(t[k])
    requires forall i | 0 <= i < k :: IsSpace(t[i])
    requires OperatorAt(t, k).None?
    ensures SkipSpaces(s, p) == p + k && OperatorAt(s, p + k).None? && s[p] == t[0]
  {
    forall i | p <= i < p + k ensures IsSpace(s[i]) {
      CharOf(s, p, t, i - p);
    }
    CharOf(s, p, t, k);
    SpacesRun(s, p, p + k);
    OperatorLocal(s, p, t, k);
    CharOf(s, p, t, 0);
  }

  /** `json("foo")` opening the input, followed by anything but a dot. */
  lemma {:induction false} JsonFooOpens(s: string)
    requires IsAt(s, 0, JsonFooText) && 11 < |s| && s[11] != '.'
    ensures SkipBlankAndComments(s, 0) == 0 && ParseOperand(s, 0, false) == Ok(JsonFoo, 11)
  {
    JsonFooChars(s, 0);
    SkipNothing(s, 0);
    JsonFooOperand(s, 0, 11);
  }

  /** `json("foo") and this`. */
  const ExtraTextInput := JsonFooText + " and this"

  lemma {:induction false} ExtraText(s: string)
    requires Is(s, ExtraTextInput)
    ensures Parse(s) == Parsed(Some(JsonFoo), " and this", None)
  {
    CallThenText(s, " and this", 1);
  }

  /** `json("foo")}`: a closing brace ends the query. */
  const SquigglyBracketInput := JsonFooText + "}"

  lemma {:induction false} SquigglyBracket(s: string)
    requires Is(s, SquigglyBracketInput)
    ensures Parse(s) == Parsed(Some(JsonFoo), "}", None)
  {
    CallThenText(s, "}", 0);
  }

  /** `json("foo"))`: an unmatched closing bracket ends the query. */
  const NormalBracketInput := JsonFooText + ")"

  lemma {:induction false} NormalBracket(s: string)
    requires Is(s, NormalBracketInput)
    ensures Parse(s) == Parsed(Some(JsonFoo), ")", None)
  {
    CallThenText(s, ")", 0);
  }

  /** `json("foo"))))`. */
  const NormalBracket2Input := JsonFooText + ")))"

  lemma {:induction false} NormalBracket2(s: string)
    requires Is(s, NormalBracket2Input)
    ensures Parse(s) == Parsed(Some(JsonFoo), ")))", None)
  {
    CallThenText(s, ")))", 0);
  }

  /** `json("foo")) + json("bar")`: nothing after the bracket is read. */
  const NormalBracket3Input := JsonFooText + ") + json(\"bar\")"

  lemma {:induction false} NormalBracket3(s: string)
    requires Is(s, NormalBracket3Input)
    ensures Parse(s) == Parsed(Some(JsonFoo), ") + json(\"bar\")", None)
  {
    CallThenText(s, ") + json(\"bar\")", 0);
  }

  // ---------------------------------------------------------------------
  // `json("foo")+meta("bar")` with no blanks around the operator, followed
  // by text.

  const TightSumText := JsonFooText + "+" + MetaBarText

  lemma {:induction false} TightSumPieces(s: string, t: string)
    requires IsAt(s, 0, TightSumText + t)
    ensures IsAt(s, 0, JsonFooText) && IsAt(s, 11, "+") && IsAt(s, 12, MetaBarText) && IsAt(s, 23, t)
  {
    Split(s, 0, TightSumText, t);
    Split(s, 0, JsonFooText + "+", MetaBarText);
    Split(s, 0, JsonFooText, "+");
  }

  /** The sum, then spaces up to the k-th character of t, where no
      operator is spelled. */
  lemma {:induction false} TightSumThenText(s: string, t: string, k: nat)
    requires Is(s, TightSumText + t) && k < |t| && !IsBlank(t[k])
    requires forall i | 0 <= i < k :: IsSpace(t[i])
    requires OperatorAt(t, k).None? && t[0] != '.'
    ensures Parse(s) == Parsed(Some(JsonPlusMeta), t, None)
  {
    Whole(s, TightSumText + t);
    TightSumPieces(s, t);
    TightSumOperator(s, t);
    forall i | 23 <= i < 23 + k ensures IsSpace(s[i]) {
      CharOf(s, 23, t, i - 23);
    }
    CharOf(s, 23, t, k);
    SpacesRun(s, 23, 23 + k);
    OperatorLocal(s, 23, t, k);
    CharOf(s, 23, t, 0);
    MetaBarOperand(s, 12, 23);
    SumThenStop(s, 0, 11, 11, 12, 12, 23);
    RestIs(s, 23, t);
  }

  lemma {:induction false} TightSumOperator(s: string, t: string)
    requires IsAt(s, 0, JsonFooText) && IsAt(s, 11, "+") && IsAt(s, 12, MetaBarText)
    ensures SkipBlankAndComments(s, 0) == 0 && ParseOperand(s, 0, false) == Ok(JsonFoo, 11)
    ensures SkipSpaces(s, 11) == 11 && OperatorAt(s, 11) == Some((Add, 1)) && SkipBlankAndComments(s, 12) == 12
  {
    JsonFooChars(s, 0);
    MetaBarChars(s, 12);
    CharOf(s, 11, "+", 0);
    SkipNothing(s, 0);
    SkipNothing(s, 11);
    SkipNothing(s, 12);
    JsonFooOperand(s, 0, 11);
  }

  /** `json("foo")+meta("bar")and this`: the word right after the call is
      left. */
  const ExtraText3Input := TightSumText + "and this"

  lemma {:induction false} ExtraText3(s: string)
    requires Is(s, ExtraText3Input)
    ensures Parse(s) == Parsed(Some(JsonPlusMeta), "and this", None)
  {
    TightSumThenText(s, "and this", 0);
  }

  /** `json("foo")+meta("bar")         and this`: the spaces are left too. */
  const ExtraText4Input := TightSumText + "         and this"

  lemma {:induction false} ExtraText4(s: string)
    requires Is(s, ExtraText4Input)
    ensures Parse(s) == Parsed(Some(JsonPlusMeta), "         and this", None)
  {
    TightSumThenText(s, "         and this", 9);
  }

  // ---------------------------------------------------------------------
  // Paths followed by text.

  /** A word that differs from w in its k-th character is not w. */
  lemma {:induction false} NotKeywordBy(s: string, p: nat, w: string, k: nat)
    requires k < |w| && p + k < |s| && s[p + k] != w[k]
    ensures !KeywordAt(s, p, w)
  {
    if p + |w| <= |s| {
      assert s[p..p + |w|][k] == s[p + k];
    }
  }

  /** An operand from the start of the input to n, then the text t: a
      space and a character where no operator is spelled. */
  lemma {:induction false} OperandThenText(s: string, n: nat, t: string, x: Node)
    requires IsAt(s, n, t) && |s| == n + |t| && 0 < n && 1 < |t|
    requires !IsBlank(s[0]) && s[0] != '#' && ParseOperand(s, 0, false) == Ok(x, n)
    requires t[0] == ' ' && !IsBlank(t[1]) && OperatorAt(t, 1).None?
    ensures Parse(s) == Parsed(Some(x), t, None)
  {
    SpaceThenText(s, n, t);
    SingleQuery(s, false, 0, x, n);
  }

  /** The text t closing the input from n: a space, then no operator. */
  lemma {:induction false} SpaceThenText(s: string, n: nat, t: string)
    requires IsAt(s, n, t) && |s| == n + |t| && 0 < n && 1 < |t|
    requires !IsBlank(s[0]) && s[0] != '#'
    requires t[0] == ' ' && !IsBlank(t[1]) && OperatorAt(t, 1).None?
    ensures SkipBlankAndComments(s, 0) == 0 && OperatorAt(s, SkipSpaces(s, n)).None? && s[n..] == t
  {
    SkipNothing(s, 0);
    assert IsSpace(t[0]);
    TextGap(s, n, t, 1);
    RestIs(s, n, t);
  }

  lemma {:induction false} OneSpace(s: string, n: nat, a: nat)
    requires a == n + 1 && a < |s| && s[n] == ' ' && !IsBlank(s[a])
    ensures SkipSpaces(s, n) == a
  {
    assert SkipSpaces(s, a) == a;
  }

  /** `this` at p. */
  lemma {:induction false} ThisAt(s: string, p: nat, q: nat)
    requires q == p + 4 && q <= |s| && s[p] == 't' && s[p + 1] == 'h' && s[p + 2] == 'i' && s[p + 3] == 's'
    ensures s[p..q] == "this"
  {
  }

  /** `this.foo` at the start, and the character after it. */
  lemma {:induction false} ThisFooChars(s: string)
    requires IsAt(s, 0, "this.foo")
    ensures 8 <= |s| && s[0] == 't' && s[1] == 'h' && s[2] == 'i' && s[3] == 's' && s[4] == '.'
    ensures s[5] == 'f' && s[6] == 'o' && s[7] == 'o'
  {
    var w := "this.foo";
    CharOf(s, 0, w, 0); CharOf(s, 0, w, 1); CharOf(s, 0, w, 2); CharOf(s, 0, w, 3);
    CharOf(s, 0, w, 4); CharOf(s, 0, w, 5); CharOf(s, 0, w, 6); CharOf(s, 0, w, 7);
  }

  /** `this` starts a path, not a call, a literal or a match. */
  lemma {:induction false} ThisWord(s: string)
    requires 8 <= |s| && s[0] == 't' && s[1] == 'h' && s[2] == 'i' && s[3] == 's' && s[4] == '.'
    ensures PlainWord(s, 0) && ScanIdent(s, 0) == 4 && s[0..4] == "this"
  {
    NotKeywordBy(s, 0, "true", 1);
    NotKeyword(s, 0, "false");
    NotKeyword(s, 0, "null");
    NotMatchKeyword(s, 0);
    IdentRun(s, 0, 4);
    ThisAt(s, 0, 4);
  }

  /** `.seg` from q to e, ending the path there. */
  lemma {:induction false} LastSegment(s: string, q: nat, e: nat, seg: string)
    requires q + 1 < e && e < |s| && s[q] == '.' && ScanIdent(s, q + 1) == e && s[q + 1..e] == seg
    requires s[e] != '(' && s[e] != '.'
    ensures PathSegments(s, q) == ([seg], e)
  {
    SegmentsEnd(s, e);
    SegmentStep(s, q, e, seg, [], e);
    assert [seg] + [] == [seg];
  }

  /** `this.foo` read as a path, before a blank. */
  lemma {:induction false} ThisFooOperand(s: string)
    requires IsAt(s, 0, "this.foo") && 8 < |s| && s[8] == ' '
    ensures ParseOperand(s, 0, false) == Ok(FooPath, 8)
  {
    ThisFooChars(s);
    ThisWord(s);
    IdentRun(s, 5, 8);
    FooAt(s, 5, 8);
    LastSegment(s, 4, 8, "foo");
    PathTerm(s, 0, 4, "this", ["foo"], 8);
    TailsEnd(s, 8, false, FooPath);
    TermThenTails(s, 0, false, FooPath, 8, Ok(FooPath, 8));
  }

  /** `this.foo`, then a space and text that does not continue it. */
  lemma {:induction false} ThisFooThenText(s: string, t: string)
    requires Is(s, "this.foo" + t) && 1 < |t| && t[0] == ' ' && !IsBlank(t[1]) && OperatorAt(t, 1).None?
    ensures Parse(s) == Parsed(Some(FooPath), t, None)
  {
    ThisFooPieces(s, t);
    ThisFooOperand(s);
    OperandThenText(s, 8, t, FooPath);
  }

  lemma {:induction false} ThisFooPieces(s: string, t: string)
    requires Is(s, "this.foo" + t) && 0 < |t|
    ensures IsAt(s, 0, "this.foo") && IsAt(s, 8, t) && |s| == 8 + |t|
    ensures s[8] == t[0] && !IsBlank(s[0]) && s[0] != '#'
  {
    Whole(s, "this.foo" + t);
    Split(s, 0, "this.foo", t);
    CharOf(s, 8, t, 0);
    StartsPlain(s, "this.foo");
  }

  /** `this.foo bar baz`: words after a path are left. */
  const PathLiteralsInput := "this.foo" + " bar baz"

  lemma {:induction false} PathLiterals(s: string)
    requires Is(s, PathLiteralsInput)
    ensures Parse(s) == Parsed(Some(FooPath), " bar baz", None)
  {
    ThisFooThenText(s, " bar baz");
  }

  /** `this.foo . bar baz`: a dot after a blank does not continue the path. */
  const PathLiterals2Input := "this.foo" + " . bar baz"

  lemma {:induction false} PathLiterals2(s: string)
    requires Is(s, PathLiterals2Input)
    ensures Parse(s) == Parsed(Some(FooPath), " . bar baz", None)
  {
    ThisFooThenText(s, " . bar baz");
  }

  /** `this.foo.bar` read as a path, before a blank. */
  lemma {:induction false} ThisFooBarOperand(s: string)
    requires IsAt(s, 0, "this.foo" + ".bar") && 12 < |s| && s[12] == ' '
    ensures ParseOperand(s, 0, false) == Ok(FooBarPath, 12)
  {
    ThisFooBarWord(s);
    PathTerm(s, 0, 4, "this", ["foo", "bar"], 12);
    TailsEnd(s, 12, false, FooBarPath);
    TermThenTails(s, 0, false, FooBarPath, 12, Ok(FooBarPath, 12));
  }

  lemma {:induction false} ThisFooBarWord(s: string)
    requires IsAt(s, 0, "this.foo" + ".bar") && 12 < |s| && s[12] == ' '
    ensures PlainWord(s, 0) && ScanIdent(s, 0) == 4 && s[0..4] == "this" && s[4] != '('
    ensures PathSegments(s, 4) == (["foo", "bar"], 12)
  {
    Split(s, 0, "this.foo", ".bar");
    ThisFooChars(s);
    ThisWord(s);
    CharOf(s, 8, ".bar", 0); CharOf(s, 8, ".bar", 1); CharOf(s, 8, ".bar", 2); CharOf(s, 8, ".bar", 3);
    IdentRun(s, 5, 8);
    FooAt(s, 5, 8);
    IdentRun(s, 9, 12);
    BarAt(s, 9, 12);
    LastSegment(s, 8, 12, "bar");
    SegmentStep(s, 4, 8, "foo", ["bar"], 12);
    FooBarJoin();
  }

  /** `this.foo.bar`, then a space and text that does not continue it. */
  lemma {:induction false} ThisFooBarThenText(s: string, t: string)
    requires Is(s, "this.foo" + ".bar" + t) && 1 < |t| && t[0] == ' ' && !IsBlank(t[1]) && OperatorAt(t, 1).None?
    ensures Parse(s) == Parsed(Some(FooBarPath), t, None)
  {
    ThisFooBarPieces(s, t);
    ThisFooBarOperand(s);
    OperandThenText(s, 12, t, FooBarPath);
  }

  lemma {:induction false} ThisFooBarPieces(s: string, t: string)
    requires Is(s, "this.foo" + ".bar" + t) && 0 < |t|
    ensures IsAt(s, 0, "this.foo" + ".bar") && IsAt(s, 12, t) && |s| == 12 + |t|
    ensures s[12] == t[0] && !IsBlank(s[0]) && s[0] != '#'
  {
    Whole(s, "this.foo" + ".bar" + t);
    Split(s, 0, "this.foo" + ".bar", t);
    CharOf(s, 12, t, 0);
    StartsPlain(s, "this.foo" + ".bar");
  }

  /** `this.foo.bar and then this`. */
  const ThisAtRootInput := "this.foo" + ".bar" + " and then this"

  lemma {:induction false} ThisAtRoot(s: string)
    requires Is(s, ThisAtRootInput)
    ensures Parse(s) == Parsed(Some(FooBarPath), " and then this", None)
  {
    ThisFooBarThenText(s, " and then this");
  }

  /** `foo.bar` read as a path, before a blank: a bare first word is the
      first segment. */
  lemma {:induction false} FooBarOperand(s: string)
    requires IsAt(s, 0, "foo.bar") && 7 < |s| && s[7] == ' '
    ensures ParseOperand(s, 0, false) == Ok(FooBarPath, 7)
  {
    FooBarWord(s);
    FooBarJoin();
    PathTerm(s, 0, 3, "foo", ["bar"], 7);
    TailsEnd(s, 7, false, FooBarPath);
    TermThenTails(s, 0, false, FooBarPath, 7, Ok(FooBarPath, 7));
  }

  lemma {:induction false} FooBarJoin()
    ensures ["foo"] + ["bar"] == ["foo", "bar"]
  {
  }

  lemma {:induction false} FooBarWord(s: string)
    requires IsAt(s, 0, "foo.bar") && 7 < |s| && s[7] == ' '
    ensures PlainWord(s, 0) && ScanIdent(s, 0) == 3 && s[0..3] == "foo" && s[3] != '('
    ensures PathSegments(s, 3) == (["bar"], 7)
  {
    var w := "foo.bar";
    CharOf(s, 0, w, 0); CharOf(s, 0, w, 1); CharOf(s, 0, w, 2); CharOf(s, 0, w, 3);
    CharOf(s, 0, w, 4); CharOf(s, 0, w, 5); CharOf(s, 0, w, 6);
    NotKeyword(s, 0, "true");
    NotKeywordBy(s, 0, "false", 1);
    NotKeyword(s, 0, "null");
    NotMatchKeyword(s, 0);
    IdentRun(s, 0, 3);
    FooAt(s, 0, 3);
    IdentRun(s, 4, 7);
    BarAt(s, 4, 7);
    LastSegment(s, 3, 7, "bar");
  }

  /** `foo.bar`, then a space and text that does not continue it. */
  lemma {:induction false} FooBarThenText(s: string, t: string)
    requires Is(s, "foo.bar" + t) && 1 < |t| && t[0] == ' ' && !IsBlank(t[1]) && OperatorAt(t, 1).None?
    ensures Parse(s) == Parsed(Some(FooBarPath), t, None)
  {
    FooBarPieces(s, t);
    FooBarThenRest(s, t);
  }

  lemma {:induction false} FooBarThenRest(s: string, t: string)
    requires IsAt(s, 0, "foo.bar") && IsAt(s, 7, t) && |s| == 7 + |t|
    requires 1 < |t| && t[0] == ' ' && !IsBlank(t[1]) && OperatorAt(t, 1).None?
    ensures Parse(s) == Parsed(Some(FooBarPath), t, None)
  {
    CharOf(s, 7, t, 0);
    FooBarOperand(s);
    StartsPlain(s, "foo.bar");
    OperandThenText(s, 7, t, FooBarPath);
  }

  lemma {:induction false} FooBarPieces(s: string, t: string)
    requires Is(s, "foo.bar" + t)
    ensures IsAt(s, 0, "foo.bar") && IsAt(s, 7, t) && |s| == 7 + |t|
  {
    Whole(s, "foo.bar" + t);
    Split(s, 0, "foo.bar", t);
  }

  /** `foo.bar and then this`. */
  const PathLiteralAtRootInput := "foo.bar" + " and then this"

  lemma {:induction false} PathLiteralAtRoot(s: string)
    requires Is(s, PathLiteralAtRootInput)
    ensures Parse(s) == Parsed(Some(FooBarPath), " and then this", None)
  {
    FooBarThenText(s, " and then this");
  }

  // ---------------------------------------------------------------------
  // `(json().foo | "fallback").from_all()` at the root and after a path.

  const JsonField := Get(Function("json", []), "foo")

  const FallbackText := "json().foo" + " | " + "\"fallback\""

  const Fallback := BinOp(Coalesce, JsonField, Literal(Str("fallback")))

  const FromAllText := ".from_all()"

  lemma {:induction false} JsonFieldChars(s: string, b: nat)
    requires IsAt(s, b, "json().foo")
    ensures b + 10 <= |s| && s[b] == 'j' && s[b + 1] == 's' && s[b + 2] == 'o' && s[b + 3] == 'n'
    ensures s[b + 4] == '(' && s[b + 5] == ')' && s[b + 6] == '.' && s[b + 7] == 'f' && s[b + 8] == 'o' && s[b + 9] == 'o'
  {
    var w := "json().foo";
    CharOf(s, b, w, 0); CharOf(s, b, w, 1); CharOf(s, b, w, 2); CharOf(s, b, w, 3); CharOf(s, b, w, 4);
    CharOf(s, b, w, 5); CharOf(s, b, w, 6); CharOf(s, b, w, 7); CharOf(s, b, w, 8); CharOf(s, b, w, 9);
  }

  /** `.foo` from q, ending at a blank. */
  lemma {:induction false} FooFieldTail(s: string, q: nat, x: Node, n: nat)
    requires n == q + 4 && n < |s| && s[q] == '.' && s[q + 1] == 'f' && s[q + 2] == 'o' && s[q + 3] == 'o'
    requires s[n] == ' ' && Checked(x)
    ensures Tails(s, q, false, x) == Ok(Get(x, "foo"), n)
  {
    var f := q + 1;
    IdentRun(s, f, n);
    FooAt(s, f, n);
    TailsEnd(s, n, false, Get(x, "foo"));
    FieldTail(s, q, false, x, "foo", n, Ok(Get(x, "foo"), n));
  }

  lemma {:induction false} JsonCallTerm(s: string, b: nat)
    requires b + 6 <= |s| && s[b] == 'j' && s[b + 1] == 's' && s[b + 2] == 'o' && s[b + 3] == 'n'
    requires s[b + 4] == '(' && s[b + 5] == ')'
    ensures ParseTerm(s, b, false) == Ok(Function("json", []), b + 6)
  {
    var e := b + 4;
    JsonAt(s, b, e);
    NoArgCall(s, b, "json", false);
  }

  /** `json().foo` from b, before a blank. */
  lemma {:induction false} JsonFieldOperand(s: string, b: nat)
    requires IsAt(s, b, "json().foo") && b + 10 < |s| && s[b + 10] == ' '
    ensures ParseOperand(s, b, false) == Ok(JsonField, b + 10)
  {
    JsonFieldChars(s, b);
    var q, n := b + 6, b + 10;
    JsonCallTerm(s, b);
    FooFieldTail(s, q, Function("json", []), n);
    TermThenTails(s, b, false, Function("json", []), q, Ok(JsonField, n));
  }

  /** `fallback` has no quote and no backslash. */
  lemma {:induction false} FallbackPlain()
    ensures forall k | 0 <= k < |"fallback"| :: "fallback"[k] != '"' && "fallback"[k] != '\\'
  {
  }

  /** `"fallback"` from b, not followed by a dot. */
  lemma {:induction false} FallbackOperand(s: string, b: nat)
    requires IsAt(s, b, "\"fallback\"") && b + 10 < |s| && s[b + 10] != '.'
    ensures ParseOperand(s, b, false) == Ok(Literal(Str("fallback")), b + 10)
  {
    var w := "\"fallback\"";
    CharOf(s, b, w, 0); CharOf(s, b, w, 1); CharOf(s, b, w, 2); CharOf(s, b, w, 3); CharOf(s, b, w, 4);
    CharOf(s, b, w, 5); CharOf(s, b, w, 6); CharOf(s, b, w, 7); CharOf(s, b, w, 8); CharOf(s, b, w, 9);
    var t, r, n := b + 1, b + 9, b + 10;
    assert s[t..r] == "fallback";
    FallbackPlain();
    StringTerm(s, b, "fallback", r, false);
    NoTails(s, b, false, Literal(Str("fallback")), n);
  }

  lemma {:induction false} FallbackPieces(s: string, b: nat)
    requires IsAt(s, b, FallbackText)
    ensures IsAt(s, b, "json().foo") && IsAt(s, b + 10, " | ") && IsAt(s, b + 13, "\"fallback\"")
  {
    Split(s, b, "json().foo" + " | ", "\"fallback\"");
    Split(s, b, "json().foo", " | ");
  }

  /** ` | ` from n: the fallback operator between single blanks. */
  lemma {:induction false} PipeBetweenBlanks(s: string, n: nat, a: nat, c: nat, r: nat)
    requires a == n + 1 && c == a + 1 && r == c + 1 && IsAt(s, n, " | ") && r < |s|
    requires !IsBlank(s[r]) && s[r] != '#'
    ensures SkipSpaces(s, n) == a && OperatorAt(s, a) == Some((Coalesce, 1)) && SkipBlankAndComments(s, c) == r
  {
    CharOf(s, n, " | ", 0); CharOf(s, n, " | ", 1); CharOf(s, n, " | ", 2);
    OneSpace(s, n, a);
    assert SkipBlank(s, r) == r;
  }

  /** `json().foo | "fallback"` from b up to a closing bracket. */
  lemma {:induction false} FallbackQuery(s: string, b: nat, m: nat)
    requires IsAt(s, b, FallbackText) && m == b + 23 && m < |s| && s[m] == ')'
    ensures ParseQuery(s, b, false) == Ok(Fallback, m)
  {
    hide ParseQuery, OpChain, OperandChain, ParseOperand;
    FallbackPieces(s, b);
    var n, a, c, r := b + 10, b + 11, b + 12, b + 13;
    CharOf(s, n, " | ", 0);
    CharOf(s, r, "\"fallback\"", 0);
    JsonFieldOperand(s, b);
    FallbackOperand(s, r);
    PipeBetweenBlanks(s, n, a, c, r);
    NoOperatorAtClose(s, m);
    ChainOfOne(s, false, n, a, Coalesce, c, r, Literal(Str("fallback")), m);
    BinaryOperands(s, b, false, JsonField, n, Coalesce, Literal(Str("fallback")), m);
  }

  lemma {:induction false} NoOperatorAtClose(s: string, m: nat)
    requires m < |s| && s[m] == ')'
    ensures OperatorAt(s, SkipSpaces(s, m)).None?
  {
    SkipNothing(s, m);
  }

  lemma {:induction false} FromAllChars(s: string, q: nat)
    requires IsAt(s, q, FromAllText)
    ensures q + 11 <= |s| && s[q] == '.' && s[q + 1] == 'f' && s[q + 2] == 'r' && s[q + 3] == 'o' && s[q + 4] == 'm'
    ensures s[q + 5] == '_' && s[q + 6] == 'a' && s[q + 7] == 'l' && s[q + 8] == 'l' && s[q + 9] == '(' && s[q + 10] == ')'
  {
    var w := FromAllText;
    CharOf(s, q, w, 0); CharOf(s, q, w, 1); CharOf(s, q, w, 2); CharOf(s, q, w, 3); CharOf(s, q, w, 4);
    CharOf(s, q, w, 5); CharOf(s, q, w, 6); CharOf(s, q, w, 7); CharOf(s, q, w, 8); CharOf(s, q, w, 9);
    CharOf(s, q, w, 10);
  }

  lemma {:induction false} FromAllName(s: string, f: nat, e: nat)
    requires e == f + 8 && e < |s| && s[f] == 'f' && s[f + 1] == 'r' && s[f + 2] == 'o' && s[f + 3] == 'm'
    requires s[f + 4] == '_' && s[f + 5] == 'a' && s[f + 6] == 'l' && s[f + 7] == 'l' && s[e] == '('
    ensures ScanIdent(s, f) == e && s[f..e] == "from_all"
  {
    IdentRun(s, f, e);
  }

  /** `.from_all()` from q, then whatever follows. */
  lemma {:induction false} FromAllTail(s: string, q: nat, y: Node, r: Res<Node>)
    requires IsAt(s, q, FromAllText) && Checked(y)
    requires Tails(s, q + 11, false, Method(y, "from_all", [])) == r
    ensures Tails(s, q, false, y) == r
  {
    FromAllChars(s, q);
    var f, e, n := q + 1, q + 9, q + 11;
    FromAllName(s, f, e);
    NoArgs(s, e, false);
    assert CallAccepted(MethodSignature("from_all"), []);
    MethodTail(s, q, false, y, "from_all", e, [], n, r);
  }

  const BracketsAtRootInput := "(" + FallbackText + ")" + FromAllText

  const FallbackFromAll := Method(Fallback, "from_all", [])

  lemma {:induction false} BracketsAtRootPieces(s: string)
    requires Is(s, BracketsAtRootInput)
    ensures |s| == 36 && IsAt(s, 0, "(") && IsAt(s, 1, FallbackText) && IsAt(s, 24, ")") && IsAt(s, 25, FromAllText)
  {
    Whole(s, BracketsAtRootInput);
    Split(s, 0, "(" + FallbackText + ")", FromAllText);
    Split(s, 0, "(" + FallbackText, ")");
    Split(s, 0, "(", FallbackText);
  }

  lemma {:induction false} BracketsAtRootTerm(s: string)
    requires Is(s, BracketsAtRootInput)
    ensures ParseTerm(s, 0, false) == Ok(Fallback, 25) && SkipBlankAndComments(s, 0) == 0
  {
    BracketsAtRootPieces(s);
    CharOf(s, 0, "(", 0);
    CharOf(s, 24, ")", 0);
    FallbackPieces(s, 1);
    JsonFieldChars(s, 1);
    SkipNothing(s, 0);
    SkipNothing(s, 1);
    SkipNothing(s, 24);
    FallbackQuery(s, 1, 24);
    BracketTerm(s, 0, false, 1, Fallback, 24, 24);
  }

  lemma {:induction false} BracketsAtRootOperand(s: string)
    requires Is(s, BracketsAtRootInput)
    ensures ParseOperand(s, 0, false) == Ok(FallbackFromAll, 36) && SkipBlankAndComments(s, 0) == 0
  {
    hide ParseOperand, ParseTerm, Tails, ParseQuery;
    BracketsAtRootPieces(s);
    BracketsAtRootTerm(s);
    assert Checked(Fallback);
    TailsEnd(s, 36, false, FallbackFromAll);
    FromAllTail(s, 25, Fallback, Ok(FallbackFromAll, 36));
    TermThenTails(s, 0, false, Fallback, 25, Ok(FallbackFromAll, 36));
  }

  /** A bracketed query with a method call on it reads the whole input. */
  lemma {:induction false} BracketsAtRoot(s: string)
    requires Is(s, BracketsAtRootInput)
    ensures Parse(s) == Parsed(Some(FallbackFromAll), "", None)
  {
    BracketsAtRootPieces(s);
    BracketsAtRootOperand(s);
    SingleQuery(s, false, 0, FallbackFromAll, 36);
  }

  const ScopedFallbackText := ".(" + FallbackText + ")"

  /** `this.<seg>.(json().foo | "fallback").from_all()` as a tree. */
  function ScopedFromAll(seg: string): (n: Node)
    ensures Checked(n)
  {
    FallbackChecked();
    assert Checked(Scoped(Path([seg]), Fallback));
    assert CallAccepted(MethodSignature("from_all"), []);
    Method(Scoped(Path([seg]), Fallback), "from_all", [])
  }

  const RootFromAll := ScopedFromAll("root")

  lemma {:induction false} FallbackChecked()
    ensures Checked(Fallback)
  {
  }

  /** `.(json().foo | "fallback")` from q, then whatever follows. */
  lemma {:induction false} ScopedFallbackTail(s: string, q: nat, x: Node, r: Res<Node>)
    requires IsAt(s, q, ScopedFallbackText) && Checked(x)
    requires Tails(s, q + 26, false, Scoped(x, Fallback)) == r
    ensures Tails(s, q, false, x) == r
  {
    hide Tails, ParseQuery;
    var b, m := q + 2, q + 25;
    Split(s, q, ".(" + FallbackText, ")");
    Split(s, q, ".(", FallbackText);
    CharOf(s, q, ".(", 0);
    CharOf(s, q, ".(", 1);
    CharOf(s, m, ")", 0);
    FallbackPieces(s, b);
    JsonFieldChars(s, b);
    SkipNothing(s, b);
    SkipNothing(s, m);
    FallbackQuery(s, b, m);
    ScopedTail(s, q, false, x, b, Fallback, m, m, r);
  }

  /** A placed word at the start that begins with neither a blank nor a
      comment. */
  lemma {:induction false} StartsPlain(s: string, w: string)
    requires IsAt(s, 0, w) && 0 < |w| && !IsBlank(w[0]) && w[0] != '#'
    ensures 0 < |s| && !IsBlank(s[0]) && s[0] != '#'
  {
    CharOf(s, 0, w, 0);
  }

  /** A placed word that begins with neither a blank nor a comment. */
  lemma {:induction false} PlainAt(s: string, p: nat, w: string)
    requires IsAt(s, p, w) && 0 < |w| && !IsBlank(w[0]) && w[0] != '#'
    ensures p < |s| && !IsBlank(s[p]) && s[p] != '#'
  {
    CharOf(s, p, w, 0);
  }

  /** `this.<seg>` before `.(`: the scan facts a path term needs. */
  lemma {:induction false} ThisSegScan(s: string, seg: string, e: nat)
    requires IsAt(s, 0, "this.") && IsAt(s, 5, seg) && e == 5 + |seg| && 0 < |seg|
    requires forall k | 0 <= k < |seg| :: IsIdentChar(seg[k])
    requires IsAt(s, e, ScopedFallbackText)
    ensures PlainWord(s, 0) && ScanIdent(s, 0) == 4 && s[0..4] == "this" && s[4] != '('
    ensures PathSegments(s, 4) == ([seg], e)
  {
    var w := "this.";
    CharOf(s, 0, w, 0); CharOf(s, 0, w, 1); CharOf(s, 0, w, 2); CharOf(s, 0, w, 3); CharOf(s, 0, w, 4);
    CharOf(s, e, ScopedFallbackText, 0);
    CharOf(s, e, ScopedFallbackText, 1);
    ThisWord(s);
    forall k | 5 <= k < e
      ensures IsIdentChar(s[k])
    {
      CharOf(s, 5, seg, k - 5);
    }
    IdentRun(s, 5, e);
    SliceIs(s, 5, seg);
    IdentRun(s, e + 1, e + 1);
    SegmentsEnd(s, e);
    SegmentStep(s, 4, e, seg, [], e);
    assert [seg] + [] == [seg];
  }

  /** `this.<seg>` before `.(`: a one-segment path. */
  lemma {:induction false} ThisSegTerm(s: string, seg: string, e: nat)
    requires IsAt(s, 0, "this.") && IsAt(s, 5, seg) && e == 5 + |seg| && 0 < |seg|
    requires forall k | 0 <= k < |seg| :: IsIdentChar(seg[k])
    requires IsAt(s, e, ScopedFallbackText)
    ensures ParseTerm(s, 0, false) == Ok(Path([seg]), e)
  {
    ThisSegScan(s, seg, e);
    PathTerm(s, 0, 4, "this", [seg], e);
  }

  /** `.` and a three-letter name from q, then whatever follows. */
  lemma {:induction false} ShortField(s: string, q: nat, x: Node, w: string, r: Res<Node>)
    requires IsAt(s, q, "." + w) && |w| == 3 && Checked(x)
    requires IsIdentChar(w[0]) && IsIdentChar(w[1]) && IsIdentChar(w[2])
    requires q + 4 == |s| || (!IsIdentChar(s[q + 4]) && s[q + 4] != '(')
    requires Tails(s, q + 4, false, Get(x, w)) == r
    ensures Tails(s, q, false, x) == r
  {
    var f, e := q + 1, q + 4;
    Split(s, q, ".", w);
    CharOf(s, q, ".", 0);
    CharOf(s, f, w, 0); CharOf(s, f, w, 1); CharOf(s, f, w, 2);
    IdentRun(s, f, e);
    SliceIs(s, f, w);
    FieldTail(s, q, false, x, w, e, r);
  }

  const BracketsAfterRootInput := "this." + "root" + ScopedFallbackText + FromAllText

  lemma {:induction false} BracketsAfterRootPieces(s: string, n: nat)
    requires IsAt(s, 0, BracketsAfterRootInput) && n == 46
    ensures IsAt(s, 0, "this.") && IsAt(s, 5, "root") && IsAt(s, 9, ScopedFallbackText) && IsAt(s, 35, FromAllText)
    ensures n <= |s|
  {
    Split(s, 0, "this." + "root" + ScopedFallbackText, FromAllText);
    Split(s, 0, "this." + "root", ScopedFallbackText);
    Split(s, 0, "this.", "root");
  }

  /** `this.<seg>.(json().foo | "fallback").from_all()` from the start,
      then tails that end the input. */
  lemma {:induction false} ThisSegScopedWhole(s: string, seg: string, z: Node)
    requires IsAt(s, 0, "this.") && IsAt(s, 5, seg) && 0 < |seg|
    requires forall k | 0 <= k < |seg| :: IsIdentChar(seg[k])
    requires IsAt(s, 5 + |seg|, ScopedFallbackText) && IsAt(s, 31 + |seg|, FromAllText)
    requires Tails(s, 42 + |seg|, false, ScopedFromAll(seg)) == Ok(z, |s|)
    ensures Parse(s) == Parsed(Some(z), "", None)
  {
    var e := 5 + |seg|;
    StartsPlain(s, "this.");
    ThisSegTerm(s, seg, e);
    ScopedFromAllWhole(s, Path([seg]), e, ScopedFromAll(seg), z);
  }

  /** A term at the very start, then its tails. */
  lemma {:induction false} OperandAtStart(s: string, x: Node, n: nat, r: Res<Node>)
    requires 0 < |s| && !IsBlank(s[0]) && s[0] != '#' && n <= |s|
    requires ParseTerm(s, 0, false) == Ok(x, n) && Checked(x) && Tails(s, n, false, x) == r
    ensures ParseOperand(s, 0, false) == r && SkipBlankAndComments(s, 0) == 0
  {
    TermThenTails(s, 0, false, x, n, r);
    SkipNothing(s, 0);
  }

  /** A term from the start up to q, then `.(json().foo | "fallback")` and
      `.from_all()`, then tails that end the input: the whole input is one
      operand. */
  lemma {:induction false} ScopedFromAllWhole(s: string, x: Node, q: nat, y: Node, z: Node)
    requires 0 < q && q + 37 <= |s| && !IsBlank(s[0]) && s[0] != '#'
    requires ParseTerm(s, 0, false) == Ok(x, q) && Checked(x)
    requires IsAt(s, q, ScopedFallbackText) && IsAt(s, q + 26, FromAllText)
    requires y == Method(Scoped(x, Fallback), "from_all", []) && Checked(y)
    requires Tails(s, q + 37, false, y) == Ok(z, |s|)
    ensures Parse(s) == Parsed(Some(z), "", None)
  {
    var b, c, r := q + 26, q + 37, Ok(z, |s|);
    FromAllTail(s, b, Scoped(x, Fallback), r);
    ScopedFallbackTail(s, q, x, r);
    OperandAtStart(s, x, q, r);
    SingleQuery(s, false, 0, z, |s|);
  }

  /** The scoped query and the method call end the input. */
  lemma {:induction false} ThisSegScopedEnd(s: string, seg: string)
    requires IsAt(s, 0, "this.") && IsAt(s, 5, seg) && 0 < |seg|
    requires forall k | 0 <= k < |seg| :: IsIdentChar(seg[k])
    requires IsAt(s, 5 + |seg|, ScopedFallbackText) && IsAt(s, 31 + |seg|, FromAllText)
    requires |s| == 42 + |seg|
    ensures Parse(s) == Parsed(Some(ScopedFromAll(seg)), "", None)
  {
    TailsEnd(s, |s|, false, ScopedFromAll(seg));
    ThisSegScopedWhole(s, seg, ScopedFromAll(seg));
  }

  /** A bracketed query scoped to a path, with a method call on it, reads
      the whole input. */
  lemma {:induction false} BracketsAfterRoot(s: string)
    requires Is(s, BracketsAfterRootInput)
    ensures Parse(s) == Parsed(Some(RootFromAll), "", None)
  {
    Whole(s, BracketsAfterRootInput);
    BracketsAfterRootPieces(s, 46);
    ThisSegScopedEnd(s, "root");
  }

  const BracketsAfterRoot2Input := BracketsAfterRootInput + ".bar" + ".baz"

  const RootFromAllBarBaz := Get(Get(RootFromAll, "bar"), "baz")

  /** `.baz` from m to the end of the input. */
  lemma {:induction false} BazTail(s: string, m: nat, x: Node)
    requires IsAt(s, m, ".baz") && m + 4 == |s| && Checked(x)
    ensures Tails(s, m, false, x) == Ok(Get(x, "baz"), m + 4)
    ensures m < |s| && !IsIdentChar(s[m]) && s[m] != '('
  {
    CharOf(s, m, ".baz", 0);
    TailsEnd(s, m + 4, false, Get(x, "baz"));
    ShortField(s, m, x, "baz", Ok(Get(x, "baz"), m + 4));
  }

  /** `.bar.baz` from q to the end of the input. */
  lemma {:induction false} BarBazTails(s: string, q: nat, x: Node)
    requires IsAt(s, q, ".bar" + ".baz") && q + 8 == |s| && Checked(x)
    ensures Tails(s, q, false, x) == Ok(Get(Get(x, "bar"), "baz"), q + 8)
  {
    var m := q + 4;
    Split(s, q, ".bar", ".baz");
    BazTail(s, m, Get(x, "bar"));
    ShortField(s, q, x, "bar", Ok(Get(Get(x, "bar"), "baz"), q + 8));
  }

  lemma {:induction false} BracketsAfterRoot2Pieces(s: string)
    requires Is(s, BracketsAfterRoot2Input)
    ensures IsAt(s, 0, "this.") && IsAt(s, 5, "root") && IsAt(s, 9, ScopedFallbackText) && IsAt(s, 35, FromAllText)
    ensures |s| == 54 && IsAt(s, 46, ".bar" + ".baz")
  {
    Whole(s, BracketsAfterRoot2Input);
    assert BracketsAfterRoot2Input == BracketsAfterRootInput + (".bar" + ".baz");
    Split(s, 0, BracketsAfterRootInput, ".bar" + ".baz");
    BracketsAfterRootPieces(s, 46);
  }

  /** The scoped query and the method call, then `.bar.baz` to the end. */
  lemma {:induction false} ThisSegScopedBarBaz(s: string, seg: string)
    requires IsAt(s, 0, "this.") && IsAt(s, 5, seg) && 0 < |seg|
    requires forall k | 0 <= k < |seg| :: IsIdentChar(seg[k])
    requires IsAt(s, 5 + |seg|, ScopedFallbackText) && IsAt(s, 31 + |seg|, FromAllText)
    requires IsAt(s, 42 + |seg|, ".bar" + ".baz") && |s| == 50 + |seg|
    ensures Parse(s) == Parsed(Some(Get(Get(ScopedFromAll(seg), "bar"), "baz")), "", None)
  {
    BarBazTails(s, 42 + |seg|, ScopedFromAll(seg));
    ThisSegScopedWhole(s, seg, Get(Get(ScopedFromAll(seg), "bar"), "baz"));
  }

  /** Field accesses after the method call continue the same operand. */
  lemma {:induction false} BracketsAfterRoot2(s: string)
    requires Is(s, BracketsAfterRoot2Input)
    ensures Parse(s) == Parsed(Some(RootFromAllBarBaz), "", None)
  {
    BracketsAfterRoot2Pieces(s);
    ThisSegScopedBarBaz(s, "root");
  }

  // ---------------------------------------------------------------------
  // A match block over two lines of cases, then more text on a new line.

  /** A quoted string with an escape-free body from p, not followed by a
      dot. */
  lemma {:induction false} QuotedOperand(s: string, p: nat, body: string, n: nat)
    requires IsAt(s, p, "\"" + body + "\"") && n == p + |body| + 2 && n < |s| && s[n] != '.'
    requires forall k | 0 <= k < |body| :: body[k] != '"' && body[k] != '\\'
    ensures ParseOperand(s, p, false) == Ok(Literal(Str(body)), n)
  {
    var b, r := p + 1, p + |body| + 1;
    Split(s, p, "\"" + body, "\"");
    Split(s, p, "\"", body);
    CharOf(s, p, "\"", 0);
    CharOf(s, r, "\"", 0);
    SliceIs(s, b, body);
    StringTerm(s, p, body, r, false);
    NoTails(s, p, false, Literal(Str(body)), n);
  }

  /** ` == ` from n. */
  lemma {:induction false} EqBetweenBlanks(s: string, n: nat, a: nat, c: nat, b: nat)
    requires a == n + 1 && c == a + 2 && b == c + 1 && IsAt(s, n, " == ") && b < |s|
    requires !IsBlank(s[b]) && s[b] != '#'
    ensures SkipSpaces(s, n) == a && OperatorAt(s, a) == Some((Eq, 2)) && SkipBlankAndComments(s, c) == b
  {
    CharOf(s, n, " == ", 0); CharOf(s, n, " == ", 1); CharOf(s, n, " == ", 2); CharOf(s, n, " == ", 3);
    OneSpace(s, n, a);
    assert SkipBlank(s, b) == b;
  }

  /** ` > ` from n. */
  lemma {:induction false} GtBetweenBlanks(s: string, n: nat, a: nat, c: nat, b: nat)
    requires a == n + 1 && c == a + 1 && b == c + 1 && IsAt(s, n, " > ") && b < |s|
    requires !IsBlank(s[b]) && s[b] != '#'
    ensures SkipSpaces(s, n) == a && OperatorAt(s, a) == Some((Gt, 1)) && SkipBlankAndComments(s, c) == b
  {
    CharOf(s, n, " > ", 0); CharOf(s, n, " > ", 1); CharOf(s, n, " > ", 2);
    OneSpace(s, n, a);
    assert SkipBlank(s, b) == b;
  }

  /** ` => ` from n: no operator, an arrow, and the result at b. */
  lemma {:induction false} ArrowBetweenBlanks(s: string, n: nat, a: nat, b: nat)
    requires a == n + 1 && b == n + 4 && IsAt(s, n, " => ") && b < |s|
    requires !IsBlank(s[b]) && s[b] != '#'
    ensures SkipSpaces(s, n) == a && OperatorAt(s, a).None?
    ensures a + 1 < |s| && s[a] == '=' && s[a + 1] == '>' && SkipBlankAndComments(s, a + 2) == b
  {
    CharOf(s, n, " => ", 0); CharOf(s, n, " => ", 1); CharOf(s, n, " => ", 2); CharOf(s, n, " => ", 3);
    OneSpace(s, n, a);
    assert SkipBlank(s, b) == b;
  }

  /** A line break ends an operator chain. */
  lemma {:induction false} LineBreakEnd(s: string, n: nat)
    requires n < |s| && s[n] == '\n'
    ensures SkipSpaces(s, n) == n && OperatorAt(s, n).None? && s[n] != '.'
  {
  }

  const EqCaseText := "\"foo\"" + " == " + "\"bar\"" + " => " + "\"baz\""

  const EqPattern := BinOp(Eq, Literal(Str("foo")), Literal(Str("bar")))

  const EqCase := Case(Test(EqPattern), Literal(Str("baz")))

  lemma {:induction false} EqCasePieces(s: string, q: nat)
    requires IsAt(s, q, EqCaseText)
    ensures IsAt(s, q, "\"foo\"") && IsAt(s, q + 5, " == ") && IsAt(s, q + 9, "\"bar\"")
    ensures IsAt(s, q + 14, " => ") && IsAt(s, q + 18, "\"baz\"")
  {
    Split(s, q, "\"foo\"" + " == " + "\"bar\"" + " => ", "\"baz\"");
    Split(s, q, "\"foo\"" + " == " + "\"bar\"", " => ");
    Split(s, q, "\"foo\"" + " == ", "\"bar\"");
    Split(s, q, "\"foo\"", " == ");
  }

  /** `"foo" == "bar"` from q, before ` => `. */
  lemma {:induction false} EqPatternQuery(s: string, q: nat)
    requires IsAt(s, q, "\"foo\"") && IsAt(s, q + 5, " == ") && IsAt(s, q + 9, "\"bar\"")
    requires IsAt(s, q + 14, " => ") && q + 18 < |s| && !IsBlank(s[q + 18]) && s[q + 18] != '#'
    ensures ParseQuery(s, q, false) == Ok(EqPattern, q + 14)
  {
    CharOf(s, q + 5, " == ", 0);
    QuotedOperand(s, q, "foo", q + 5);
    EqPatternChain(s, q + 5);
    BinaryOperands(s, q, false, Literal(Str("foo")), q + 5, Eq, Literal(Str("bar")), q + 14);
  }

  /** ` == "bar"` from n, before ` => `. */
  lemma {:induction false} EqPatternChain(s: string, n: nat)
    requires IsAt(s, n, " == ") && IsAt(s, n + 4, "\"bar\"")
    requires IsAt(s, n + 9, " => ") && n + 13 < |s| && !IsBlank(s[n + 13]) && s[n + 13] != '#'
    ensures OpChain(s, n, false) == Ok(Chain([Eq], [Literal(Str("bar"))]), n + 9)
  {
    var a, c, b, m := n + 1, n + 3, n + 4, n + 9;
    CharOf(s, b, "\"bar\"", 0);
    CharOf(s, m, " => ", 0);
    QuotedOperand(s, b, "bar", m);
    EqBetweenBlanks(s, n, a, c, b);
    ArrowBetweenBlanks(s, m, m + 1, m + 4);
    ChainOfOne(s, false, n, a, Eq, c, b, Literal(Str("bar")), m);
  }

  /** A quoted result from b up to a line break at m. */
  lemma {:induction false} QuotedResult(s: string, b: nat, body: string, m: nat)
    requires IsAt(s, b, "\"" + body + "\"") && m == b + |body| + 2 && m < |s| && s[m] == '\n'
    requires forall k | 0 <= k < |body| :: body[k] != '"' && body[k] != '\\'
    ensures ParseQuery(s, b, false) == Ok(Literal(Str(body)), m)
  {
    LineBreakEnd(s, m);
    QuotedOperand(s, b, body, m);
    SingleOperand(s, b, false, Literal(Str(body)), m);
  }

  /** `"foo" == "bar" => "baz"` from q up to a line break. */
  lemma {:induction false} EqCaseParsed(s: string, q: nat)
    requires IsAt(s, q, EqCaseText) && q + 23 < |s| && s[q + 23] == '\n'
    ensures ParseCase(s, q, false) == Ok(EqCase, q + 23)
  {
    var m := q + 14;
    EqCasePieces(s, q);
    CharOf(s, q, "\"foo\"", 0);
    CharOf(s, m + 4, "\"baz\"", 0);
    EqPatternQuery(s, q);
    EqCaseResult(s, m);
    TestCase(s, q, false, EqPattern, m, m + 1, m + 4, Literal(Str("baz")), m + 9);
  }

  /** `=> "baz"` from m up to a line break. */
  lemma {:induction false} EqCaseResult(s: string, m: nat)
    requires IsAt(s, m, " => ") && IsAt(s, m + 4, "\"baz\"") && m + 9 < |s| && s[m + 9] == '\n'
    ensures SkipSpaces(s, m) == m + 1 && m + 2 < |s| && s[m + 1] == '=' && s[m + 2] == '>'
    ensures SkipBlankAndComments(s, m + 3) == m + 4
    ensures ParseQuery(s, m + 4, false) == Ok(Literal(Str("baz")), m + 9)
  {
    CharOf(s, m + 4, "\"baz\"", 0);
    ArrowBetweenBlanks(s, m, m + 1, m + 4);
    QuotedResult(s, m + 4, "baz", m + 9);
  }

  const GtCaseText := "5" + " > " + "10" + " => " + "\"or this\""

  const GtPattern := BinOp(Gt, Literal(Int64(5)), Literal(Int64(10)))

  const GtCase := Case(Test(GtPattern), Literal(Str("or this")))

  lemma {:induction false} GtCasePieces(s: string, q: nat)
    requires IsAt(s, q, GtCaseText)
    ensures IsAt(s, q, "5") && IsAt(s, q + 1, " > ") && IsAt(s, q + 4, "10")
    ensures IsAt(s, q + 6, " => ") && IsAt(s, q + 10, "\"or this\"")
  {
    Split(s, q, "5" + " > " + "10" + " => ", "\"or this\"");
    Split(s, q, "5" + " > " + "10", " => ");
    Split(s, q, "5" + " > ", "10");
    Split(s, q, "5", " > ");
  }

  /** `5` from p, before ` > `. */
  lemma {:induction false} FiveOperand(s: string, p: nat)
    requires IsAt(s, p, "5") && IsAt(s, p + 1, " > ")
    ensures ParseOperand(s, p, false) == Ok(Literal(Int64(5)), p + 1)
  {
    CharOf(s, p, "5", 0);
    CharOf(s, p + 1, " > ", 0);
    SingleDigit(s, p);
    NumberTerm(s, p, 5, p + 1, false);
    NoTails(s, p, false, Literal(Int64(5)), p + 1);
  }

  /** The digits `10` read as ten. */
  lemma {:induction false} TenValue()
    ensures DigitsValue("10") == 10
  {
    assert "10"[..1] == "1";
    assert "1"[..0] == "";
  }

  /** `10` from p, before a blank. */
  lemma {:induction false} TenOperand(s: string, p: nat)
    requires IsAt(s, p, "10") && IsAt(s, p + 2, " => ")
    ensures ParseOperand(s, p, false) == Ok(Literal(Int64(10)), p + 2)
  {
    var e := p + 2;
    CharOf(s, p, "10", 0); CharOf(s, p, "10", 1);
    CharOf(s, e, " => ", 0);
    ScanDigitsRun(s, p, e);
    assert s[p..e] == "10";
    TenValue();
    assert ParseNumber(s, p) == Ok(Int64(10), e);
    NumberTerm(s, p, 10, e, false);
    NoTails(s, p, false, Literal(Int64(10)), e);
  }

  /** `5 > 10` from q, before ` => `. */
  lemma {:induction false} GtPatternQuery(s: string, q: nat)
    requires IsAt(s, q, "5") && IsAt(s, q + 1, " > ") && IsAt(s, q + 4, "10")
    requires IsAt(s, q + 6, " => ") && q + 10 < |s| && !IsBlank(s[q + 10]) && s[q + 10] != '#'
    ensures ParseQuery(s, q, false) == Ok(GtPattern, q + 6)
  {
    var n, a, c, b, m := q + 1, q + 2, q + 3, q + 4, q + 6;
    PlainAt(s, b, "10");
    FiveOperand(s, q);
    TenOperand(s, b);
    GtBetweenBlanks(s, n, a, c, b);
    ArrowBetweenBlanks(s, m, m + 1, m + 4);
    ChainOfOne(s, false, n, a, Gt, c, b, Literal(Int64(10)), m);
    BinaryOperands(s, q, false, Literal(Int64(5)), n, Gt, Literal(Int64(10)), m);
  }

  /** `5 > 10 => "or this"` from q up to a line break. */
  lemma {:induction false} GtCaseParsed(s: string, q: nat)
    requires IsAt(s, q, GtCaseText) && q + 19 < |s| && s[q + 19] == '\n'
    ensures ParseCase(s, q, false) == Ok(GtCase, q + 19)
  {
    var m := q + 6;
    GtCasePieces(s, q);
    CharOf(s, q, "5", 0);
    GtPatternQuery(s, q);
    GtCaseResult(s, m);
    TestCase(s, q, false, GtPattern, m, m + 1, m + 4, Literal(Str("or this")), m + 13);
  }

  /** `or this` has no quote and no backslash. */
  lemma {:induction false} OrThisPlain()
    ensures forall k | 0 <= k < |"or this"| :: "or this"[k] != '"' && "or this"[k] != '\\'
  {
  }

  /** ` => "or this"` from m, up to a line break. */
  lemma {:induction false} GtCaseResult(s: string, m: nat)
    requires IsAt(s, m, " => ") && IsAt(s, m + 4, "\"or this\"") && m + 13 < |s| && s[m + 13] == '\n'
    ensures SkipSpaces(s, m) == m + 1 && m + 2 < |s| && s[m + 1] == '=' && s[m + 2] == '>'
    ensures SkipBlankAndComments(s, m + 3) == m + 4
    ensures ParseQuery(s, m + 4, false) == Ok(Literal(Str("or this")), m + 13)
  {
    CharOf(s, m + 4, "\"or this\"", 0);
    ArrowBetweenBlanks(s, m, m + 1, m + 4);
    OrThisPlain();
    QuotedResult(s, m + 4, "or this", m + 13);
  }

  /** A line break and a tab before the next non-blank character. */
  lemma {:induction false} LineAndTab(s: string, n: nat, b: nat)
    requires IsAt(s, n, "\n\t") && b == n + 2 && b < |s| && !IsBlank(s[b]) && s[b] != '#'
    ensures SkipBlankAndComments(s, n) == b
  {
    CharOf(s, n, "\n\t", 0); CharOf(s, n, "\n\t", 1);
    assert SkipBlank(s, b) == b;
    assert SkipBlank(s, n + 1) == b;
  }

  /** Where a case starts: not a blank, a comment, a comma or the closing
      brace. */
  lemma {:induction false} CaseStartAt(s: string, p: nat, w: string)
    requires IsAt(s, p, w) && 0 < |w| && !IsBlank(w[0]) && w[0] != '#' && w[0] != ',' && w[0] != '}'
    ensures p < |s| && !IsBlank(s[p]) && s[p] != '#' && s[p] != ',' && s[p] != '}'
  {
    CharOf(s, p, w, 0);
  }

  /** A line break and the closing brace end the cases. */
  lemma {:induction false} LineThenClose(s: string, n: nat)
    requires IsAt(s, n, "\n}")
    ensures n < |s| && s[n] == '\n' && SkipBlankAndComments(s, n) == n + 1
    ensures Cases(s, n + 1, false) == Ok([], n + 2)
  {
    CharOf(s, n, "\n}", 0); CharOf(s, n, "\n}", 1);
    assert SkipBlank(s, n + 1) == n + 1;
    CasesClose(s, n + 1, false);
  }

  /** The last case and the closing brace. */
  lemma {:induction false} LastCaseClosed(s: string, p: nat)
    requires IsAt(s, p, GtCaseText) && IsAt(s, p + 19, "\n}")
    ensures Cases(s, p, false) == Ok([GtCase], p + 21)
  {
    var e := p + 19;
    LineThenClose(s, e);
    CaseStartAt(s, p, GtCaseText);
    GtCaseParsed(s, p);
    assert [GtCase] + [] == [GtCase];
    CasesStep(s, p, false, GtCase, e, e + 1, [], p + 21);
  }

  /** Both cases, on lines of their own, up to the closing brace. */
  lemma {:induction false} MatchCasesList(s: string, q: nat)
    requires IsAt(s, q, EqCaseText) && IsAt(s, q + 23, "\n\t") && IsAt(s, q + 25, GtCaseText)
    requires IsAt(s, q + 44, "\n}")
    ensures Cases(s, q, false) == Ok([EqCase, GtCase], q + 46)
  {
    var e, b := q + 23, q + 25;
    CharOf(s, e, "\n\t", 0);
    CaseStartAt(s, q, EqCaseText);
    CaseStartAt(s, b, GtCaseText);
    LineAndTab(s, e, b);
    EqCaseParsed(s, q);
    LastCaseClosed(s, b);
    assert [EqCase] + [GtCase] == [EqCase, GtCase];
    CasesStep(s, q, false, EqCase, e, b, [GtCase], q + 46);
  }

  const MatchHeadText := "match " + "null {"

  /** `match ` at the start. */
  lemma {:induction false} MatchWord(s: string)
    requires IsAt(s, 0, "match ") && IsAt(s, 6, "null {")
    ensures MatchKeywordAt(s, 0) && SkipSpaces(s, 6) == 6
  {
    var w := "match ";
    CharOf(s, 0, w, 0); CharOf(s, 0, w, 1); CharOf(s, 0, w, 2); CharOf(s, 0, w, 3);
    CharOf(s, 0, w, 4); CharOf(s, 0, w, 5);
    assert s[0..5] == "match";
    PlainAt(s, 6, "null {");
    SkipNothing(s, 6);
  }

  lemma {:induction false} NullWordAt(s: string, p: nat)
    requires IsAt(s, p, "null {")
    ensures p + 4 < |s| && s[p] == 'n' && KeywordAt(s, p, "null") && s[p + 4] == ' '
  {
    var w := "null {";
    CharOf(s, p, w, 0); CharOf(s, p, w, 1); CharOf(s, p, w, 2); CharOf(s, p, w, 3); CharOf(s, p, w, 4);
    assert s[p..p + 4] == "null";
  }

  /** `null` from p, before a blank. */
  lemma {:induction false} NullOperand(s: string, p: nat)
    requires IsAt(s, p, "null {")
    ensures ParseOperand(s, p, false) == Ok(Literal(Null), p + 4)
  {
    var e := p + 4;
    NullWordAt(s, p);
    NullTerm(s, p, false);
    NoTails(s, p, false, Literal(Null), e);
  }

  /** A blank, then the opening brace. */
  lemma {:induction false} SpaceThenBrace(s: string, n: nat)
    requires n + 1 < |s| && s[n] == ' ' && s[n + 1] == '{'
    ensures SkipSpaces(s, n) == n + 1 && OperatorAt(s, n + 1).None? && SkipBlankAndComments(s, n) == n + 1
  {
    OneSpace(s, n, n + 1);
    assert SkipBlank(s, n + 1) == n + 1;
  }

  /** `null` as the target, up to the brace. */
  lemma {:induction false} NullTarget(s: string, p: nat)
    requires IsAt(s, p, "null {")
    ensures ParseQuery(s, p, false) == Ok(Literal(Null), p + 4) && SkipBlankAndComments(s, p + 4) == p + 5
    ensures s[p + 5] == '{'
  {
    CharOf(s, p, "null {", 4); CharOf(s, p, "null {", 5);
    NullOperand(s, p);
    SpaceThenBrace(s, p + 4);
    SingleOperand(s, p, false, Literal(Null), p + 4);
  }

  /** `match null {` and the cases after a line break and a tab. */
  lemma {:induction false} MatchHeadTerm(s: string, cs: seq<Case>, m: nat)
    requires IsAt(s, 0, "match ") && IsAt(s, 6, "null {") && IsAt(s, 12, "\n\t")
    requires 14 < |s| && !IsBlank(s[14]) && s[14] != '#'
    requires Cases(s, 14, false) == Ok(cs, m)
    ensures ParseTerm(s, 0, false) == Ok(Match(Literal(Null), cs), m)
  {
    MatchWord(s);
    NullTarget(s, 6);
    LineAndTab(s, 12, 14);
    MatchTerm(s, 0, false, 6, Literal(Null), 10, 11, 14, cs, m);
  }

  const MatchNode := Match(Literal(Null), [EqCase, GtCase])

  const MatchExpressionInput := MatchHeadText + "\n\t" + EqCaseText + "\n\t" + GtCaseText + "\n}" + "\nnot this"

  lemma {:induction false} MatchPieces(s: string)
    requires Is(s, MatchExpressionInput)
    ensures |s| == 69 && IsAt(s, 0, "match ") && IsAt(s, 6, "null {") && IsAt(s, 12, "\n\t") && IsAt(s, 14, EqCaseText)
    ensures IsAt(s, 37, "\n\t") && IsAt(s, 39, GtCaseText) && IsAt(s, 58, "\n}") && IsAt(s, 60, "\nnot this")
  {
    Whole(s, MatchExpressionInput);
    Split(s, 0, MatchHeadText + "\n\t" + EqCaseText + "\n\t" + GtCaseText + "\n}", "\nnot this");
    Split(s, 0, MatchHeadText + "\n\t" + EqCaseText + "\n\t" + GtCaseText, "\n}");
    Split(s, 0, MatchHeadText + "\n\t" + EqCaseText + "\n\t", GtCaseText);
    Split(s, 0, MatchHeadText + "\n\t" + EqCaseText, "\n\t");
    Split(s, 0, MatchHeadText + "\n\t", EqCaseText);
    Split(s, 0, MatchHeadText, "\n\t");
    Split(s, 0, "match ", "null {");
  }

  /** The match block from the start to just after its closing brace. */
  lemma {:induction false} MatchTermParsed(s: string)
    requires IsAt(s, 0, "match ") && IsAt(s, 6, "null {") && IsAt(s, 12, "\n\t") && IsAt(s, 14, EqCaseText)
    requires IsAt(s, 37, "\n\t") && IsAt(s, 39, GtCaseText) && IsAt(s, 58, "\n}")
    ensures ParseTerm(s, 0, false) == Ok(MatchNode, 60)
  {
    CaseStartAt(s, 14, EqCaseText);
    MatchCasesList(s, 14);
    MatchHeadTerm(s, [EqCase, GtCase], 60);
  }

  /** A line break from n: no tail, no operator. */
  lemma {:induction false} LineBreakAt(s: string, n: nat, w: string)
    requires IsAt(s, n, w) && 0 < |w| && w[0] == '\n'
    ensures n < |s| && s[n] != '.' && SkipSpaces(s, n) == n && OperatorAt(s, n).None?
  {
    CharOf(s, n, w, 0);
    LineBreakEnd(s, n);
  }

  /** The match block as the first operand, ending at a line break. */
  lemma {:induction false} MatchOperand(s: string)
    requires IsAt(s, 0, "match ") && IsAt(s, 60, "\nnot this") && ParseTerm(s, 0, false) == Ok(MatchNode, 60)
    ensures ParseOperand(s, 0, false) == Ok(MatchNode, 60) && SkipBlankAndComments(s, 0) == 0
  {
    StartsPlain(s, "match ");
    LineBreakAt(s, 60, "\nnot this");
    TailsEnd(s, 60, false, MatchNode);
    OperandAtStart(s, MatchNode, 60, Ok(MatchNode, 60));
  }

  /** A match block ends at its closing brace: the line after it is left. */
  lemma {:induction false} MatchExpression(s: string)
    requires Is(s, MatchExpressionInput)
    ensures Parse(s) == Parsed(Some(MatchNode), "\nnot this", None)
  {
    MatchPieces(s);
    MatchTermParsed(s);
    MatchQuery(s);
  }

  lemma {:induction false} MatchQuery(s: string)
    requires |s| == 69 && IsAt(s, 0, "match ") && IsAt(s, 60, "\nnot this") && ParseTerm(s, 0, false) == Ok(MatchNode, 60)
    ensures Parse(s) == Parsed(Some(MatchNode), "\nnot this", None)
  {
    MatchOperand(s);
    LineBreakAt(s, 60, "\nnot this");
    SingleQuery(s, false, 0, MatchNode, 60);
    RestIs(s, 60, "\nnot this");
  }

  /** A single digit from p, before a character that neither continues the
      number nor starts a tail. */
  lemma {:induction false} DigitPiece(s: string, p: nat, w: string, u: string, v: int)
    requires IsAt(s, p, w) && IsAt(s, p + 1, u) && |w| == 1 && IsDigit(w[0]) && v == (w[0] as int) - ('0' as int)
    requires 0 < |u| && !IsDigit(u[0]) && u[0] != '.'
    ensures ParseOperand(s, p, false) == Ok(Literal(Int64(v)), p + 1)
  {
    CharOf(s, p, w, 0);
    CharOf(s, p + 1, u, 0);
    SingleDigit(s, p);
    NumberTerm(s, p, v, p + 1, false);
    NoTails(s, p, false, Literal(Int64(v)), p + 1);
  }

  /** `5` from p, before u. */
  lemma {:induction false} FiveAt(s: string, p: nat, u: string)
    requires IsAt(s, p, "5") && IsAt(s, p + 1, u) && 0 < |u| && !IsDigit(u[0]) && u[0] != '.'
    ensures ParseOperand(s, p, false) == Ok(Five, p + 1)
  {
    DigitPiece(s, p, "5", u, 5);
  }

  /** `6` from p, before u. */
  lemma {:induction false} SixAt(s: string, p: nat, u: string)
    requires IsAt(s, p, "6") && IsAt(s, p + 1, u) && 0 < |u| && !IsDigit(u[0]) && u[0] != '.'
    ensures ParseOperand(s, p, false) == Ok(Literal(Int64(6)), p + 1)
  {
    DigitPiece(s, p, "6", u, 6);
  }

  /** `8` from p, before u. */
  lemma {:induction false} EightAt(s: string, p: nat, u: string)
    requires IsAt(s, p, "8") && IsAt(s, p + 1, u) && 0 < |u| && !IsDigit(u[0]) && u[0] != '.'
    ensures ParseOperand(s, p, false) == Ok(Literal(Int64(8)), p + 1)
  {
    DigitPiece(s, p, "8", u, 8);
  }

  /** ` * ` from n. */
  lemma {:induction false} MulBetweenBlanks(s: string, n: nat, a: nat, c: nat, b: nat)
    requires a == n + 1 && c == a + 1 && b == c + 1 && IsAt(s, n, " * ") && b < |s|
    requires !IsBlank(s[b]) && s[b] != '#'
    ensures SkipSpaces(s, n) == a && OperatorAt(s, a) == Some((Mul, 1)) && SkipBlankAndComments(s, c) == b
  {
    CharOf(s, n, " * ", 0); CharOf(s, n, " * ", 1); CharOf(s, n, " * ", 2);
    OneSpace(s, n, a);
    assert SkipBlank(s, b) == b;
  }

  /** A placed closing bracket: no operator there. */
  lemma {:induction false} CloseAt(s: string, m: nat, w: string)
    requires IsAt(s, m, w) && 0 < |w| && w[0] == ')'
    ensures OperatorAt(s, SkipSpaces(s, m)).None?
  {
    CharOf(s, m, w, 0);
    NoOperatorAtClose(s, m);
  }

  const Five := Literal(Int64(5))

  const Product := BinOp(Mul, Five, Literal(Int64(8)))

  /** `5 * 8` from q, before `)`. */
  lemma {:induction false} ProductQuery(s: string, q: nat)
    requires IsAt(s, q, "5") && IsAt(s, q + 1, " * ") && IsAt(s, q + 4, "8") && IsAt(s, q + 5, ")")
    ensures ParseQuery(s, q, false) == Ok(Product, q + 5)
  {
    var n, a, c, b, m := q + 1, q + 2, q + 3, q + 4, q + 5;
    PlainAt(s, b, "8");
    FiveAt(s, q, " * ");
    EightAt(s, b, ")");
    MulBetweenBlanks(s, n, a, c, b);
    CloseAt(s, m, ")");
    ChainOfOne(s, false, n, a, Mul, c, b, Literal(Int64(8)), m);
    BinaryOperands(s, q, false, Five, n, Mul, Literal(Int64(8)), m);
  }

  /** `(5 * 8)` at the start, before a space. */
  lemma {:induction false} ProductOperand(s: string)
    requires IsAt(s, 0, "(") && IsAt(s, 1, "5") && IsAt(s, 2, " * ") && IsAt(s, 5, "8") && IsAt(s, 6, ")")
    requires IsAt(s, 7, " +")
    ensures ParseOperand(s, 0, false) == Ok(Product, 7) && SkipBlankAndComments(s, 0) == 0
  {
    StartsPlain(s, "(");
    CharOf(s, 0, "(", 0);
    CharOf(s, 6, ")", 0);
    CharOf(s, 7, " +", 0);
    PlainAt(s, 1, "5");
    SkipNothing(s, 1);
    SkipNothing(s, 6);
    ProductQuery(s, 1);
    BracketTerm(s, 0, false, 1, Product, 6, 6);
    TailsEnd(s, 7, false, Product);
    OperandAtStart(s, Product, 7, Ok(Product, 7));
  }

  /** A space and `+` from n, before a line break. */
  lemma {:induction false} SpacedPlus(s: string, n: nat)
    requires IsAt(s, n, " +") && IsAt(s, n + 2, "\n\t")
    ensures SkipSpaces(s, n) == n + 1 && OperatorAt(s, n + 1) == Some((Add, 1))
  {
    CharOf(s, n, " +", 0); CharOf(s, n, " +", 1);
    CharOf(s, n + 2, "\n\t", 0);
    OneSpace(s, n, n + 1);
  }

  /** A space and `-` from n, before a line break. */
  lemma {:induction false} SpacedMinus(s: string, n: nat)
    requires IsAt(s, n, " -") && IsAt(s, n + 2, "\n\t")
    ensures SkipSpaces(s, n) == n + 1 && OperatorAt(s, n + 1) == Some((Sub, 1))
  {
    CharOf(s, n, " -", 0); CharOf(s, n, " -", 1);
    CharOf(s, n + 2, "\n\t", 0);
    OneSpace(s, n, n + 1);
  }

  const AndAlsoText := " and also this"

  /** ` and also this` from n: a word, not an operator. */
  lemma {:induction false} WordsAfter(s: string, n: nat)
    requires IsAt(s, n, AndAlsoText)
    ensures OperatorAt(s, SkipSpaces(s, n)).None?
  {
    CharOf(s, n, AndAlsoText, 0); CharOf(s, n, AndAlsoText, 1); CharOf(s, n, AndAlsoText, 2);
    OneSpace(s, n, n + 1);
  }

  /** `6 -`, a line break and `5` from p, before ` and also this`. */
  lemma {:induction false} MinusChain(s: string, p: nat)
    requires IsAt(s, p, "6") && IsAt(s, p + 1, " -") && IsAt(s, p + 3, "\n\t") && IsAt(s, p + 5, "5")
    requires IsAt(s, p + 6, AndAlsoText)
    ensures ParseOperand(s, p, false) == Ok(Literal(Int64(6)), p + 1)
    ensures OpChain(s, p + 1, false) == Ok(Chain([Sub], [Five]), p + 6)
  {
    SixAt(s, p, " -");
    MinusFive(s, p + 1);
  }

  /** ` -`, a line break and `5` from n, before ` and also this`. */
  lemma {:induction false} MinusFive(s: string, n: nat)
    requires IsAt(s, n, " -") && IsAt(s, n + 2, "\n\t") && IsAt(s, n + 4, "5") && IsAt(s, n + 5, AndAlsoText)
    ensures OpChain(s, n, false) == Ok(Chain([Sub], [Five]), n + 5)
  {
    MinusBeforeFive(s, n);
    FiveAt(s, n + 4, AndAlsoText);
    WordsAfter(s, n + 5);
    ChainOfOne(s, false, n, n + 1, Sub, n + 2, n + 4, Five, n + 5);
  }

  /** ` -` and a line break from n, before `5`. */
  lemma {:induction false} MinusBeforeFive(s: string, n: nat)
    requires IsAt(s, n, " -") && IsAt(s, n + 2, "\n\t") && IsAt(s, n + 4, "5")
    ensures SkipSpaces(s, n) == n + 1 && OperatorAt(s, n + 1) == Some((Sub, 1))
    ensures SkipBlankAndComments(s, n + 2) == n + 4
  {
    SpacedMinus(s, n);
    PlainAt(s, n + 4, "5");
    LineAndTab(s, n + 2, n + 4);
  }

  const OperatorsInput := "(" + "5" + " * " + "8" + ")" + " +" + "\n\t" + "6" + " -" + "\n\t" + "5" + AndAlsoText

  const Difference := BinOp(Sub, BinOp(Add, Product, Literal(Int64(6))), Five)

  lemma {:induction false} OperatorsPieces(s: string)
    requires Is(s, OperatorsInput)
    ensures |s| == 31 && IsAt(s, 0, "(") && IsAt(s, 1, "5") && IsAt(s, 2, " * ") && IsAt(s, 5, "8") && IsAt(s, 6, ")")
    ensures IsAt(s, 7, " +") && IsAt(s, 9, "\n\t") && IsAt(s, 11, "6") && IsAt(s, 12, " -") && IsAt(s, 14, "\n\t")
    ensures IsAt(s, 16, "5") && IsAt(s, 17, AndAlsoText)
  {
    Whole(s, OperatorsInput);
    Split(s, 0, "(" + "5" + " * " + "8" + ")" + " +" + "\n\t" + "6" + " -" + "\n\t" + "5", AndAlsoText);
    Split(s, 0, "(" + "5" + " * " + "8" + ")" + " +" + "\n\t" + "6" + " -" + "\n\t", "5");
    Split(s, 0, "(" + "5" + " * " + "8" + ")" + " +" + "\n\t" + "6" + " -", "\n\t");
    Split(s, 0, "(" + "5" + " * " + "8" + ")" + " +" + "\n\t" + "6", " -");
    Split(s, 0, "(" + "5" + " * " + "8" + ")" + " +" + "\n\t", "6");
    Split(s, 0, "(" + "5" + " * " + "8" + ")" + " +", "\n\t");
    Split(s, 0, "(" + "5" + " * " + "8" + ")", " +");
    Split(s, 0, "(" + "5" + " * " + "8", ")");
    Split(s, 0, "(" + "5" + " * ", "8");
    Split(s, 0, "(" + "5", " * ");
    Split(s, 0, "(", "5");
  }

  /** The two operators after the bracket, across line breaks. */
  lemma {:induction false} OperatorsChain(s: string)
    requires IsAt(s, 7, " +") && IsAt(s, 9, "\n\t") && IsAt(s, 11, "6") && IsAt(s, 12, " -") && IsAt(s, 14, "\n\t")
    requires IsAt(s, 16, "5") && IsAt(s, 17, AndAlsoText)
    ensures OpChain(s, 7, false) == Ok(Chain([Add, Sub], [Literal(Int64(6)), Five]), 17)
  {
    SpacedPlus(s, 7);
    PlainAt(s, 11, "6");
    LineAndTab(s, 9, 11);
    MinusChain(s, 11);
    ChainOfTwo(s, false, 7, 8, Add, 9, 11, Literal(Int64(6)), 12, Sub, Five, 17);
  }

  /** Operators may be followed by line breaks; equal binding groups to the
      left, and the text after the last operand is left over. */
  lemma {:induction false} OperatorsAndLineBreaks(s: string)
    requires Is(s, OperatorsInput)
    ensures Parse(s) == Parsed(Some(Difference), AndAlsoText, None)
  {
    OperatorsPieces(s);
    ProductOperand(s);
    OperatorsChain(s);
    TernaryOperands(s, 0, false, Product, 7, Add, Literal(Int64(6)), Sub, Five, 17);
    AcceptedWith(s, false, 0, Difference, 17);
    RestIs(s, 17, AndAlsoText);
  }
}
