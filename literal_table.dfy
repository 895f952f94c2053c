/**
 * The literal table: object and array literals, their parse failures, and
 * what the parsed literals evaluate to.
 */
module LiteralTable {
  import opened Wrappers
  import opened Values
  import opened Ast
  import opened Registry
  import opened Combinators
  import opened QueryParser
  import opened ParserSteps
  import opened ParserFailures
  import opened ParserTerms
  import opened TableText
  import opened LiteralSteps
  import opened Evaluation
  import opened EvaluationProps

  // ---------------------------------------------------------------------
  // `{5:"foo"}`: an object key that is not a string.

  const NumberKeyInput := "{5:\"foo\"}"

  lemma {:induction false} NumberKeyChars(s: string)
    requires Is(s, NumberKeyInput)
    ensures |s| == 9 && s[0] == '{' && s[1] == '5' && s[2] == ':'
  {
    NumberKeyCharsPart1(s);
  }

  lemma {:induction false} NumberKeyCharsPart1(s: string)
    requires Is(s, NumberKeyInput)
    ensures |s| == 9 && s[0] == '{' && s[1] == '5' && s[2] == ':'
  {
  }

  lemma {:induction false} NumberKeyElement(s: string)
    requires Is(s, NumberKeyInput)
    ensures ParseElement(s, 1, false) == Ok(Literal(Int64(5)), 2)
  {
    NumberKeyChars(s);
    SingleDigit(s, 1);
    NumberElement(s, 1, 5, 2, false);
  }

  lemma {:induction false} NumberKeyText()
    ensures "object keys must be strings, received: " + KindName(Int64(5))
            == "object keys must be strings, received: int64"
  {
    assert KindName(Int64(5)) == "int64";
  }

  lemma {:induction false} NumberKeyMessage(s: string)
    ensures ErrorAtPosition(Custom(0, "object keys must be strings, received: int64"), s)
            == "line 1 char 1: " + "object keys must be strings, received: int64"
  {
    var msg := "object keys must be strings, received: int64";
    FirstLineError(s, Custom(0, msg), "line 1 char 1: ", msg);
  }

  /** The key is parsed before it is refused, and the refusal names the
      opening brace. */
  lemma {:induction false} NumberKey(s: string)
    requires Is(s, NumberKeyInput)
    ensures TryParse(s, false) == Rejected(Custom(0, "object keys must be strings, received: int64"))
    ensures ErrorAtPosition(Custom(0, "object keys must be strings, received: int64"), s)
            == "line 1 char 1: " + "object keys must be strings, received: int64"
  {
    var err := Custom(0, "object keys must be strings, received: int64");
    NumberKeyChars(s);
    SkipNothing(s, 0);
    SkipNothing(s, 1);
    NumberKeyElement(s);
    NumberKeyText();
    KeyNotString(s, 1, false, 0, Int64(5), 2);
    ObjectFails(s, 0, false, 1, err);
    OperandFailsQuery(s, 0, false, err);
    RejectedWith(s, false, 0, err);
    NumberKeyMessage(s);
  }

  // ---------------------------------------------------------------------
  // `[5,null,"unterminated string]`: the third element never ends.

  const OpenElementInput := "[5,null,\"unterminated string]"

  lemma {:induction false} OpenElementChars(s: string)
    requires Is(s, OpenElementInput)
    ensures |s| == 29 && s[0] == '[' && s[1] == '5' && s[2] == ','
    ensures s[3] == 'n' && s[3..7] == "null" && s[7] == ',' && s[8] == '"'
  {
    OpenElementCharsPart1(s);
    OpenElementCharsPart2(s);
    NullAt(s, 3, 7);
  }

  lemma {:induction false} OpenElementCharsPart1(s: string)
    requires Is(s, OpenElementInput)
    ensures |s| == 29 && s[0] == '[' && s[1] == '5' && s[2] == ',' && s[3] == 'n' && s[4] == 'u' && s[5] == 'l'
  {
  }

  lemma {:induction false} OpenElementCharsPart2(s: string)
    requires Is(s, OpenElementInput)
    ensures |s| == 29 && s[6] == 'l' && s[7] == ',' && s[8] == '"'
  {
  }

  lemma {:induction false} OpenElementLine(s: string)
    requires Is(s, OpenElementInput)
    ensures OnFirstLine(s, 29) && forall k | 8 < k < 29 :: s[k] != '"' && s[k] != '\\'
  {
    assert s == OpenElementInput;
  }

  lemma {:induction false} OpenElementScan(s: string)
    requires Is(s, OpenElementInput)
    ensures SkipBlankAndComments(s, 0) == 0 && SkipBlankAndComments(s, 1) == 1
    ensures SkipBlankAndComments(s, 2) == 2 && SkipBlankAndComments(s, 3) == 3
    ensures SkipBlankAndComments(s, 7) == 7 && SkipBlankAndComments(s, 8) == 8
  {
    OpenElementChars(s);
    SkipNothing(s, 0);
    SkipNothing(s, 1);
    SkipNothing(s, 2);
    SkipNothing(s, 3);
    SkipNothing(s, 7);
    SkipNothing(s, 8);
  }

  lemma {:induction false} OpenElementFirst(s: string)
    requires Is(s, OpenElementInput)
    ensures ParseElement(s, 1, false) == Ok(Literal(Int64(5)), 2)
    ensures ParseElement(s, 3, false) == Ok(Literal(Null), 7)
  {
    OpenElementChars(s);
    SingleDigit(s, 1);
    NumberElement(s, 1, 5, 2, false);
    NullElement(s, 3, false);
  }

  lemma {:induction false} OpenElementRest(s: string)
    requires Is(s, OpenElementInput)
    ensures Elements(s, 8, false) == Fail(Expected(29, true, ["end quote"]))
  {
    OpenElementChars(s);
    OpenElementLine(s);
    Unterminated(s, 8, false);
    ElementFails(s, 8, false, Expected(29, true, ["end quote"]));
  }

  lemma {:induction false} OpenElementMessage(s: string)
    requires OnFirstLine(s, 29)
    ensures ErrorAtPosition(Expected(29, true, ["end quote"]), s)
            == "line 1 char 30: " + "required: expected end quote"
  {
    OneItemMessage(29, true, "end quote");
    FirstLineError(s, Expected(29, true, ["end quote"]), "line 1 char 30: ", "required: expected end quote");
  }

  /** The elements before it parse; the missing end quote is then required
      where the input ends. */
  lemma {:induction false} OpenElement(s: string)
    requires Is(s, OpenElementInput)
    ensures TryParse(s, false) == Rejected(Expected(29, true, ["end quote"]))
    ensures ErrorAtPosition(Expected(29, true, ["end quote"]), s)
            == "line 1 char 30: " + "required: expected end quote"
  {
    var err := Expected(29, true, ["end quote"]);
    OpenElementChars(s);
    OpenElementScan(s);
    OpenElementFirst(s);
    OpenElementRest(s);
    ElementThenFails(s, 3, false, Literal(Null), 7, 7, 8, err);
    ElementThenFails(s, 1, false, Literal(Int64(5)), 2, 2, 3, err);
    ArrayFails(s, 0, false, 1, err);
    OperandFailsQuery(s, 0, false, err);
    RejectedWith(s, false, 0, err);
    OpenElementLine(s);
    OpenElementMessage(s);
  }

  // ---------------------------------------------------------------------
  // The bracketed sums the dynamic rows contain

  const Five := Literal(Int64(5))

  const FiveAndFive := BinOp(Add, Five, Five)

  const NotANumber := Literal(Str("not a number"))

  const FiveAndText := BinOp(Add, Five, NotANumber)

  /** The context the literal table evaluates in: message 0 of an empty
      batch, no context value. */
  const NoMessages := Ctx(0, [], None)

  /** A `5` operand followed by a blank or a closing bracket. */
  lemma {:induction false} FiveOperand(s: string, b: nat, n: nat, d: bool)
    requires n == b + 1 && n < |s| && s[b] == '5' && (s[n] == ' ' || s[n] == ')')
    ensures ParseOperand(s, b, d) == Ok(Five, n)
  {
    SingleDigit(s, b);
    NumberTerm(s, b, 5, n, d);
    NoTails(s, b, d, Five, n);
  }

  /** `not a number` has no quote and no backslash. */
  lemma {:induction false} NotANumberPlain()
    ensures forall k | 0 <= k < |"not a number"| :: "not a number"[k] != '"' && "not a number"[k] != '\\'
  {
  }

  /** The quoted operand `"not a number"` followed by a closing bracket. */
  lemma {:induction false} TextOperand(s: string, b: nat, t: nat, r: nat, n: nat, d: bool)
    requires t == b + 1 && t <= r && n == r + 1 && n < |s| && s[b] == '"' && s[r] == '"' && s[n] == ')'
    requires s[t..r] == "not a number"
    ensures ParseOperand(s, b, d) == Ok(NotANumber, n)
  {
    NotANumberPlain();
    StringTerm(s, b, "not a number", r, d);
    NoTails(s, b, d, NotANumber, n);
  }

  /** `+` between two single blanks, after an operand ending at n. */
  lemma {:induction false} PlusBetweenBlanks(s: string, n: nat, a: nat, c: nat, b: nat)
    requires a == n + 1 && c == a + 1 && b == c + 1 && b < |s|
    requires s[n] == ' ' && s[a] == '+' && s[c] == ' ' && s[b] != ' ' && s[b] != '#' && !IsBlank(s[b])
    ensures SkipSpaces(s, n) == a && OperatorAt(s, a) == Some((Add, 1)) && SkipBlankAndComments(s, c) == b
  {
    SpacesRun(s, n, a);
    SpacesRun(s, c, b);
  }

  /** A sum of two operands whose right operand ends at a closing bracket. */
  /** Nothing continues a chain at a closing bracket. */
  lemma {:induction false} NoOperatorAtClose(s: string, m: nat)
    requires m < |s| && s[m] == ')'
    ensures OperatorAt(s, SkipSpaces(s, m)).None?
  {
    SkipNothing(s, m);
  }

  lemma {:induction false} SumChain(s: string, d: bool, n: nat, a: nat, c: nat, r: nat, y: Node, m: nat)
    requires n <= |s| && m < |s| && s[m] == ')'
    requires SkipSpaces(s, n) == a && a <= c
    requires OperatorAt(s, a) == Some((Add, c - a)) && SkipBlankAndComments(s, c) == r
    requires ParseOperand(s, r, d) == Ok(y, m)
    ensures OpChain(s, n, d) == Ok(Chain([Add], [y]), m)
  {
    NoOperatorAtClose(s, m);
    ChainOfOne(s, d, n, a, Add, c, r, y, m);
  }

  lemma {:induction false} SumQuery(s: string, b: nat, d: bool, x: Node, n: nat, a: nat, c: nat, r: nat, y: Node, m: nat)
    requires b <= n <= |s| && m < |s| && s[m] == ')'
    requires ParseOperand(s, b, d) == Ok(x, n) && SkipSpaces(s, n) == a && a <= c
    requires OperatorAt(s, a) == Some((Add, c - a)) && SkipBlankAndComments(s, c) == r
    requires ParseOperand(s, r, d) == Ok(y, m)
    ensures ParseQuery(s, b, d) == Ok(BinOp(Add, x, y), m)
  {
    SumChain(s, d, n, a, c, r, y, m);
    BinaryOperands(s, b, d, x, n, Add, y, m);
  }

  /** A bracketed query with no blanks inside the brackets, as an element. */
  lemma {:induction false} TightBracketElement(s: string, p: nat, b: nat, d: bool, y: Node, m: nat, n: nat)
    requires b == p + 1 && b < |s| && s[p] == '(' && !IsBlank(s[b]) && s[b] != '#'
    requires ParseQuery(s, b, d) == Ok(y, m) && n == m + 1 && m < |s| && s[m] == ')'
    ensures ParseElement(s, p, d) == Ok(y, n)
  {
    SkipNothing(s, b);
    SkipNothing(s, m);
    BracketParsed(s, p, d, b, y, m, m);
    BracketElement(s, p, d, y, n);
  }

  /** `(x + y)` with one blank on each side of the `+`, as an element. */
  lemma {:induction false} BracketedSum(s: string, p: nat, d: bool, x: Node, y: Node, m: nat)
    requires p + 6 <= |s| && s[p] == '(' && !IsBlank(s[p + 1]) && s[p + 1] != '#'
    requires ParseOperand(s, p + 1, d) == Ok(x, p + 2) && SkipSpaces(s, p + 2) == p + 3
    requires OperatorAt(s, p + 3) == Some((Add, 1)) && SkipBlankAndComments(s, p + 4) == p + 5
    requires ParseOperand(s, p + 5, d) == Ok(y, m) && m < |s| && s[m] == ')'
    ensures ParseElement(s, p, d) == Ok(BinOp(Add, x, y), m + 1)
  {
    var b, n, a, c, r := p + 1, p + 2, p + 3, p + 4, p + 5;
    SumQuery(s, b, d, x, n, a, c, r, y, m);
    TightBracketElement(s, p, b, d, BinOp(Add, x, y), m, m + 1);
  }

  /** `(5 + 5)` as an element. */
  lemma {:induction false} FiveAndFiveElement(s: string, p: nat, d: bool)
    requires p + 7 <= |s| && s[p] == '(' && s[p + 1] == '5' && s[p + 2] == ' ' && s[p + 3] == '+'
    requires s[p + 4] == ' ' && s[p + 5] == '5' && s[p + 6] == ')'
    ensures ParseElement(s, p, d) == Ok(FiveAndFive, p + 7)
  {
    var b, n, a, c, r, m := p + 1, p + 2, p + 3, p + 4, p + 5, p + 6;
    FiveOperand(s, b, n, d);
    FiveOperand(s, r, m, d);
    PlusBetweenBlanks(s, n, a, c, r);
    BracketedSum(s, p, d, Five, Five, m);
  }

  /** `(5 + "not a number")` as an element. */
  lemma {:induction false} FiveAndTextElement(s: string, p: nat, d: bool)
    requires p + 20 <= |s| && s[p] == '(' && s[p + 1] == '5' && s[p + 2] == ' ' && s[p + 3] == '+' && s[p + 4] == ' '
    requires s[p + 5] == '"' && s[p + 6..p + 18] == "not a number" && s[p + 18] == '"' && s[p + 19] == ')'
    ensures ParseElement(s, p, d) == Ok(FiveAndText, p + 20)
  {
    FiveAndTextSum(s, p + 1, d);
    TightBracketElement(s, p, p + 1, d, FiveAndText, p + 19, p + 20);
  }

  /** `5 + "not a number"` from b, before `)`. */
  lemma {:induction false} FiveAndTextSum(s: string, b: nat, d: bool)
    requires b + 19 <= |s| && s[b] == '5' && s[b + 1] == ' ' && s[b + 2] == '+' && s[b + 3] == ' '
    requires s[b + 4] == '"' && s[b + 5..b + 17] == "not a number" && s[b + 17] == '"' && s[b + 18] == ')'
    ensures ParseQuery(s, b, d) == Ok(FiveAndText, b + 18)
  {
    FiveOperand(s, b, b + 1, d);
    TextOperand(s, b + 4, b + 5, b + 17, b + 18, d);
    PlusBetweenBlanks(s, b + 1, b + 2, b + 3, b + 4);
    SumQuery(s, b, d, Five, b + 1, b + 2, b + 3, b + 4, NotANumber, b + 18);
  }

  lemma {:induction false} FiveAndFiveEvaluates(ctx: Ctx)
    ensures Exec(FiveAndFive, ctx) == Success(Number(10.0))
  {
    AddSemantics(Five, Five, ctx, Int64(5), Int64(5));
  }

  lemma {:induction false} FiveAndTextEvaluates(ctx: Ctx)
    ensures Exec(FiveAndText, ctx) == Failure("expected number value, found string: not a number")
  {
    AddSemantics(Five, NotANumber, ctx, Int64(5), Str("not a number"));
    NotANumberText();
  }

  lemma {:induction false} NotANumberText()
    ensures ExpectedValueError("number", Str("not a number")) == "expected number value, found string: not a number"
  {
    assert "expected " + "number" == "expected number";
    assert "expected number" + " value, found " == "expected number value, found ";
    assert "expected number value, found " + "string" == "expected number value, found string";
    assert "expected number value, found string" + ": " == "expected number value, found string: ";
  }

  /** An object of one dynamic entry holds that entry's field. */
  lemma {:induction false} OneEntryObject(e: Entry, ctx: Ctx, k: string, v: Value)
    requires ExecEntry(e, ctx) == Success((k, v))
    ensures Exec(DynObject([e]), ctx) == Success(Object(map[k := v]))
  {
    var fields: map<string, Value> := map[];
    assert [e][1..] == [];
    assert ExecEntries([e][1..], ctx, fields[k := v]) == Success(fields[k := v]);
    assert ExecEntries([e], ctx, fields) == ExecEntries([e][1..], ctx, fields[k := v]);
    assert fields[k := v] == map[k := v];
  }

  // ---------------------------------------------------------------------
  // `{"foo":"bar"}`: a static object.

  const StaticObjectInput := "{\"foo\":\"bar\"}"

  lemma {:induction false} StaticObjectChars(s: string)
    requires Is(s, StaticObjectInput)
    ensures |s| == 13 && s[0] == '{' && s[1] == '"' && s[2..5] == "foo" && s[5] == '"' && s[6] == ':'
    ensures s[7] == '"' && s[8..11] == "bar" && s[11] == '"' && s[12] == '}'
  {
    StaticObjectCharsPart1(s);
    StaticObjectCharsPart2(s);
    StaticObjectCharsPart3(s);
    FooAt(s, 2, 5);
    BarAt(s, 8, 11);
  }

  lemma {:induction false} StaticObjectCharsPart1(s: string)
    requires Is(s, StaticObjectInput)
    ensures |s| == 13 && s[0] == '{' && s[1] == '"' && s[2] == 'f' && s[3] == 'o' && s[4] == 'o' && s[5] == '"'
  {
  }

  lemma {:induction false} StaticObjectCharsPart2(s: string)
    requires Is(s, StaticObjectInput)
    ensures |s| == 13 && s[6] == ':' && s[7] == '"' && s[8] == 'b' && s[9] == 'a' && s[10] == 'r' && s[11] == '"'
  {
  }

  lemma {:induction false} StaticObjectCharsPart3(s: string)
    requires Is(s, StaticObjectInput)
    ensures |s| == 13 && s[12] == '}'
  {
  }

  lemma {:induction false} StaticObjectEntry(s: string)
    requires Is(s, StaticObjectInput)
    ensures Entries(s, 1, false, 0) == Ok([Entry(Literal(Str("foo")), Literal(Str("bar")))], 13)
  {
    StaticObjectChars(s);
    SkipNothing(s, 6);
    SkipNothing(s, 7);
    SkipNothing(s, 12);
    StringElement(s, 1, 5, false);
    StringElement(s, 7, 11, false);
    EntryParsed(s, 1, false, 0, Literal(Str("foo")), 6, 6, 7, Literal(Str("bar")), 12);
    EntriesLast(s, 1, false, 0, Entry(Literal(Str("foo")), Literal(Str("bar"))), 12, 12);
  }

  /** An object of literal strings folds to one literal at parse time. */
  lemma {:induction false} StaticFold()
    ensures MakeObject([Entry(Literal(Str("foo")), Literal(Str("bar")))]) == Literal(Object(map["foo" := Str("bar")]))
  {
    var es := [Entry(Literal(Str("foo")), Literal(Str("bar")))];
    assert StaticEntry(es[0]);
    assert es[1..] == [];
    assert StaticFields(es, map[]) == map["foo" := Str("bar")];
  }

  lemma {:induction false} StaticObject(s: string)
    requires Is(s, StaticObjectInput)
    ensures Parse(s) == Parsed(Some(Literal(Object(map["foo" := Str("bar")]))), [], None)
    ensures Exec(Literal(Object(map["foo" := Str("bar")])), NoMessages) == Success(Object(map["foo" := Str("bar")]))
  {
    StaticObjectChars(s);
    SkipNothing(s, 0);
    SkipNothing(s, 1);
    StaticObjectEntry(s);
    ObjectParsed(s, 0, false, 1, [Entry(Literal(Str("foo")), Literal(Str("bar")))], 13);
    StaticFold();
    WholeLiteral(s, Literal(Object(map["foo" := Str("bar")])));
  }

  // ---------------------------------------------------------------------
  // `{"foo":(5 + 5)}`: an object with a computed value.

  const SumValueInput := "{\"foo\":(5 + 5)}"

  const SumValueEntry := Entry(Literal(Str("foo")), FiveAndFive)

  lemma {:induction false} SumValueChars(s: string)
    requires Is(s, SumValueInput)
    ensures |s| == 15 && s[0] == '{' && s[1] == '"' && s[2..5] == "foo" && s[5] == '"' && s[6] == ':'
    ensures s[7] == '(' && s[8] == '5' && s[9] == ' ' && s[10] == '+' && s[11] == ' ' && s[12] == '5'
    ensures s[13] == ')' && s[14] == '}'
  {
    SumValueCharsPart1(s);
    SumValueCharsPart2(s);
    SumValueCharsPart3(s);
    FooAt(s, 2, 5);
  }

  lemma {:induction false} SumValueCharsPart1(s: string)
    requires Is(s, SumValueInput)
    ensures |s| == 15 && s[0] == '{' && s[1] == '"' && s[2] == 'f' && s[3] == 'o' && s[4] == 'o' && s[5] == '"'
  {
  }

  lemma {:induction false} SumValueCharsPart2(s: string)
    requires Is(s, SumValueInput)
    ensures |s| == 15 && s[6] == ':' && s[7] == '(' && s[8] == '5' && s[9] == ' ' && s[10] == '+' && s[11] == ' '
  {
  }

  lemma {:induction false} SumValueCharsPart3(s: string)
    requires Is(s, SumValueInput)
    ensures |s| == 15 && s[12] == '5' && s[13] == ')' && s[14] == '}'
  {
  }

  lemma {:induction false} SumValueEntries(s: string)
    requires Is(s, SumValueInput)
    ensures Entries(s, 1, false, 0) == Ok([SumValueEntry], 15)
  {
    SumValueChars(s);
    SkipNothing(s, 6);
    SkipNothing(s, 7);
    SkipNothing(s, 14);
    StringElement(s, 1, 5, false);
    FiveAndFiveElement(s, 7, false);
    EntryParsed(s, 1, false, 0, Literal(Str("foo")), 6, 6, 7, FiveAndFive, 14);
    EntriesLast(s, 1, false, 0, SumValueEntry, 14, 14);
  }

  lemma {:induction false} SumValueTerm(s: string)
    requires Is(s, SumValueInput)
    ensures SkipBlankAndComments(s, 0) == 0 && ParseTerm(s, 0, false) == Ok(MakeObject([SumValueEntry]), 15)
  {
    SumValueChars(s);
    SkipNothing(s, 0);
    SkipNothing(s, 1);
    SumValueEntries(s);
    ObjectParsed(s, 0, false, 1, [SumValueEntry], 15);
  }

  lemma {:induction false} SumValueParsed(s: string)
    requires Is(s, SumValueInput)
    ensures Parse(s) == Parsed(Some(DynObject([SumValueEntry])), [], None)
  {
    SumValueChars(s);
    SumValueTerm(s);
    assert !StaticEntry([SumValueEntry][0]);
    WholeLiteral(s, DynObject([SumValueEntry]));
  }

  lemma {:induction false} SumValueEvaluates(ctx: Ctx)
    ensures Exec(DynObject([SumValueEntry]), ctx) == Success(Object(map["foo" := Number(10.0)]))
  {
    FiveAndFiveEvaluates(ctx);
    EntryKeyThenValue(SumValueEntry, ctx);
    OneEntryObject(SumValueEntry, ctx, "foo", Number(10.0));
  }

  /** The value is evaluated when the object is. */
  lemma {:induction false} SumValue(s: string)
    requires Is(s, SumValueInput)
    ensures Parse(s) == Parsed(Some(DynObject([SumValueEntry])), [], None)
    ensures Exec(DynObject([SumValueEntry]), NoMessages) == Success(Object(map["foo" := Number(10.0)]))
  {
    SumValueParsed(s);
    SumValueEvaluates(NoMessages);
  }

  // ---------------------------------------------------------------------
  // `["foo",(5 + 5),null]`: an array with a computed element.

  const SumElementInput := "[\"foo\",(5 + 5),null]"

  const SumElements := [Literal(Str("foo")), FiveAndFive, Literal(Null)]

  lemma {:induction false} SumElementChars(s: string)
    requires Is(s, SumElementInput)
    ensures |s| == 20 && s[0] == '[' && s[1] == '"' && s[2..5] == "foo" && s[5] == '"' && s[6] == ','
    ensures s[7] == '(' && s[8] == '5' && s[9] == ' ' && s[10] == '+' && s[11] == ' ' && s[12] == '5'
    ensures s[13] == ')' && s[14] == ','
  {
    SumElementCharsPart1(s);
    SumElementCharsPart2(s);
    SumElementCharsPart3(s);
    FooAt(s, 2, 5);
  }

  lemma {:induction false} SumElementCharsPart1(s: string)
    requires Is(s, SumElementInput)
    ensures |s| == 20 && s[0] == '[' && s[1] == '"' && s[2] == 'f' && s[3] == 'o' && s[4] == 'o' && s[5] == '"'
  {
  }

  lemma {:induction false} SumElementCharsPart2(s: string)
    requires Is(s, SumElementInput)
    ensures |s| == 20 && s[6] == ',' && s[7] == '(' && s[8] == '5' && s[9] == ' ' && s[10] == '+' && s[11] == ' '
  {
  }

  lemma {:induction false} SumElementCharsPart3(s: string)
    requires Is(s, SumElementInput)
    ensures |s| == 20 && s[12] == '5' && s[13] == ')' && s[14] == ','
  {
  }

  lemma {:induction false} SumElementTail(s: string)
    requires Is(s, SumElementInput)
    ensures |s| == 20 && s[15] == 'n' && s[15..19] == "null" && s[19] == ']'
  {
    SumElementTailPart1(s);
    NullAt(s, 15, 19);
  }

  lemma {:induction false} SumElementTailPart1(s: string)
    requires Is(s, SumElementInput)
    ensures |s| == 20 && s[15] == 'n' && s[16] == 'u' && s[17] == 'l' && s[18] == 'l' && s[19] == ']'
  {
  }

  lemma {:induction false} SumElementLast(s: string)
    requires Is(s, SumElementInput)
    ensures Elements(s, 15, false) == Ok([Literal(Null)], 20)
  {
    SumElementTail(s);
    NullElement(s, 15, false);
    SkipNothing(s, 19);
    ElementsLast(s, 15, false, Literal(Null), 19, 19);
  }

  lemma {:induction false} SumElementList(s: string)
    requires Is(s, SumElementInput)
    ensures Elements(s, 1, false) == Ok(SumElements, 20)
  {
    SumElementChars(s);
    Tight(s, 6, 7);
    StringElement(s, 1, 5, false);
    SumElementRest(s);
    ElementsNext(s, 1, false, Literal(Str("foo")), 6, 6, 7, [FiveAndFive, Literal(Null)], 20);
    assert [Literal(Str("foo"))] + [FiveAndFive, Literal(Null)] == SumElements;
  }

  lemma {:induction false} SumElementRest(s: string)
    requires Is(s, SumElementInput)
    ensures Elements(s, 7, false) == Ok([FiveAndFive, Literal(Null)], 20)
  {
    SumElementChars(s);
    SumElementTail(s);
    Tight(s, 14, 15);
    FiveAndFiveElement(s, 7, false);
    SumElementLast(s);
    ElementsNext(s, 7, false, FiveAndFive, 14, 14, 15, [Literal(Null)], 20);
    assert [FiveAndFive] + [Literal(Null)] == [FiveAndFive, Literal(Null)];
  }

  lemma {:induction false} SumElementParsed(s: string)
    requires Is(s, SumElementInput)
    ensures Parse(s) == Parsed(Some(DynArray(SumElements)), [], None)
  {
    SumElementChars(s);
    SkipNothing(s, 0);
    SkipNothing(s, 1);
    SumElementList(s);
    ArrayParsed(s, 0, false, 1, SumElements, 20);
    assert !SumElements[1].Literal?;
    WholeLiteral(s, DynArray(SumElements));
  }

  lemma {:induction false} SumElementEvaluates(ctx: Ctx)
    ensures Exec(DynArray(SumElements), ctx) == Success(Array([Str("foo"), Number(10.0), Null]))
  {
    FiveAndFiveEvaluates(ctx);
    var es := SumElements;
    assert Exec(es[0], ctx) == Success(Str("foo")) && Exec(es[2], ctx) == Success(Null);
    ArrayOfValues(es, ctx);
    var a := Exec(DynArray(es), ctx).value;
    assert a.elems == [Str("foo"), Number(10.0), Null];
  }

  /** Elements are evaluated in order into an array. */
  lemma {:induction false} SumElement(s: string)
    requires Is(s, SumElementInput)
    ensures Parse(s) == Parsed(Some(DynArray(SumElements)), [], None)
    ensures Exec(DynArray(SumElements), NoMessages) == Success(Array([Str("foo"), Number(10.0), Null]))
  {
    SumElementParsed(s);
    SumElementEvaluates(NoMessages);
  }

  // ---------------------------------------------------------------------
  // `{("foobar".uppercase()):5}`: an object with a computed key.

  const ComputedKeyInput := "{(\"foobar\".uppercase()):5}"

  const Upcased := Method(Literal(Str("foobar")), "uppercase", [])

  const ComputedKeyEntry := Entry(Upcased, Five)

  lemma {:induction false} ComputedKeyChars(s: string)
    requires Is(s, ComputedKeyInput)
    ensures |s| == 26 && s[0] == '{' && s[1] == '(' && s[2] == '"' && s[3..9] == "foobar"
    ensures s[9] == '"' && s[10] == '.'
  {
    ComputedKeyCharsPart1(s);
    ComputedKeyCharsPart2(s);
    FoobarAt(s, 3, 9);
  }

  lemma {:induction false} ComputedKeyCharsPart1(s: string)
    requires Is(s, ComputedKeyInput)
    ensures |s| == 26 && s[0] == '{' && s[1] == '(' && s[2] == '"' && s[3] == 'f' && s[4] == 'o' && s[5] == 'o'
  {
  }

  lemma {:induction false} ComputedKeyCharsPart2(s: string)
    requires Is(s, ComputedKeyInput)
    ensures |s| == 26 && s[6] == 'b' && s[7] == 'a' && s[8] == 'r' && s[9] == '"' && s[10] == '.'
  {
  }

  lemma {:induction false} ComputedKeyRest(s: string)
    requires Is(s, ComputedKeyInput)
    ensures |s| == 26 && s[11] == 'u' && s[20] == '(' && s[21] == ')' && s[22] == ')'
    ensures s[23] == ':' && s[24] == '5' && s[25] == '}'
    ensures forall k | 11 <= k < 20 :: IsIdentChar(s[k])
  {
    assert s == ComputedKeyInput;
  }

  lemma {:induction false} ComputedKeyName(s: string)
    requires Is(s, ComputedKeyInput)
    ensures s[11..20] == "uppercase"
  {
    ComputedKeyNamePart1(s);
    ComputedKeyNamePart2(s);
    UppercaseAt(s, 11, 20);
  }

  lemma {:induction false} ComputedKeyNamePart1(s: string)
    requires Is(s, ComputedKeyInput)
    ensures |s| == 26 && s[11] == 'u' && s[12] == 'p' && s[13] == 'p' && s[14] == 'e' && s[15] == 'r' && s[16] == 'c'
  {
  }

  lemma {:induction false} ComputedKeyNamePart2(s: string)
    requires Is(s, ComputedKeyInput)
    ensures |s| == 26 && s[17] == 'a' && s[18] == 's' && s[19] == 'e'
  {
  }

  lemma {:induction false} UpcasedChecked()
    ensures Checked(Upcased)
  {
    assert CallAccepted(MethodSignature("uppercase"), []);
  }

  lemma {:induction false} ComputedKeyTail(s: string)
    requires Is(s, ComputedKeyInput)
    ensures Tails(s, 10, false, Literal(Str("foobar"))) == Ok(Upcased, 22)
  {
    ComputedKeyChars(s);
    ComputedKeyRest(s);
    ComputedKeyName(s);
    IdentRun(s, 11, 20);
    NoArgs(s, 20, false);
    UpcasedChecked();
    TailsEnd(s, 22, false, Upcased);
    MethodTail(s, 10, false, Literal(Str("foobar")), "uppercase", 20, [], 22, Ok(Upcased, 22));
  }

  /** `foobar` has no quote and no backslash. */
  lemma {:induction false} FoobarPlain()
    ensures forall k | 0 <= k < |"foobar"| :: "foobar"[k] != '"' && "foobar"[k] != '\\'
  {
  }

  lemma {:induction false} ComputedKeyQuery(s: string)
    requires Is(s, ComputedKeyInput)
    ensures ParseQuery(s, 2, false) == Ok(Upcased, 22)
  {
    ComputedKeyChars(s);
    ComputedKeyRest(s);
    FoobarPlain();
    StringTerm(s, 2, "foobar", 9, false);
    ComputedKeyTail(s);
    TermThenTails(s, 2, false, Literal(Str("foobar")), 10, Ok(Upcased, 22));
    NoOperatorAtClose(s, 22);
    SingleOperand(s, 2, false, Upcased, 22);
  }

  lemma {:induction false} ComputedKeyElements(s: string)
    requires Is(s, ComputedKeyInput)
    ensures ParseElement(s, 1, false) == Ok(Upcased, 23)
    ensures ParseElement(s, 24, false) == Ok(Five, 25)
  {
    ComputedKeyChars(s);
    ComputedKeyRest(s);
    ComputedKeyQuery(s);
    TightBracketElement(s, 1, 2, false, Upcased, 22, 23);
    SingleDigit(s, 24);
    NumberElement(s, 24, 5, 25, false);
  }

  lemma {:induction false} ComputedKeyEntries(s: string)
    requires Is(s, ComputedKeyInput)
    ensures Entries(s, 1, false, 0) == Ok([ComputedKeyEntry], 26)
  {
    hide ParseEntry, EntryValue, ParseElement, ParseQuery, ParseOperand, ParseTerm, Entries, Elements;
    ComputedKeyRest(s);
    ComputedKeyElements(s);
    SkipNothing(s, 23);
    SkipNothing(s, 24);
    SkipNothing(s, 25);
    EntryParsed(s, 1, false, 0, Upcased, 23, 23, 24, Five, 25);
    EntriesLast(s, 1, false, 0, ComputedKeyEntry, 25, 25);
  }

  lemma {:induction false} ComputedKeyParsed(s: string)
    requires Is(s, ComputedKeyInput)
    ensures Parse(s) == Parsed(Some(DynObject([ComputedKeyEntry])), [], None)
  {
    ComputedKeyChars(s);
    SkipNothing(s, 0);
    SkipNothing(s, 1);
    ComputedKeyEntries(s);
    ObjectParsed(s, 0, false, 1, [ComputedKeyEntry], 26);
    assert !StaticEntry([ComputedKeyEntry][0]);
    WholeLiteral(s, DynObject([ComputedKeyEntry]));
  }

  lemma {:induction false} FoobarUpper()
    ensures Upper("foobar") == "FOOBAR"
  {
    var u := Upper("foobar");
    assert u[0] == 'F' && u[1] == 'O' && u[2] == 'O' && u[3] == 'B' && u[4] == 'A' && u[5] == 'R';
  }

  lemma {:induction false} ComputedKeyEvaluates(ctx: Ctx)
    ensures Exec(DynObject([ComputedKeyEntry]), ctx) == Success(Object(map["FOOBAR" := Int64(5)]))
  {
    FoobarUpper();
    assert Exec(Upcased, ctx) == Success(Str("FOOBAR"));
    EntryKeyThenValue(ComputedKeyEntry, ctx);
    OneEntryObject(ComputedKeyEntry, ctx, "FOOBAR", Int64(5));
  }

  /** The key is a query; its result names the field. */
  lemma {:induction false} ComputedKey(s: string)
    requires Is(s, ComputedKeyInput)
    ensures Parse(s) == Parsed(Some(DynObject([ComputedKeyEntry])), [], None)
    ensures Exec(DynObject([ComputedKeyEntry]), NoMessages) == Success(Object(map["FOOBAR" := Int64(5)]))
  {
    ComputedKeyParsed(s);
    ComputedKeyEvaluates(NoMessages);
  }

  // ---------------------------------------------------------------------
  // `{"foo":{"bar":(5 + 5)}}`: a dynamic object inside an object.

  const NestedObjectInput := "{\"foo\":{\"bar\":(5 + 5)}}"

  const InnerEntry := Entry(Literal(Str("bar")), FiveAndFive)

  const OuterEntry := Entry(Literal(Str("foo")), DynObject([InnerEntry]))

  lemma {:induction false} NestedObjectChars(s: string)
    requires Is(s, NestedObjectInput)
    ensures |s| == 23 && s[0] == '{' && s[1] == '"' && s[2..5] == "foo" && s[5] == '"' && s[6] == ':'
    ensures s[7] == '{' && s[8] == '"' && s[9..12] == "bar" && s[12] == '"' && s[13] == ':'
  {
    NestedObjectCharsPart1(s);
    NestedObjectCharsPart2(s);
    NestedObjectCharsPart3(s);
    FooAt(s, 2, 5);
    BarAt(s, 9, 12);
  }

  lemma {:induction false} NestedObjectCharsPart1(s: string)
    requires Is(s, NestedObjectInput)
    ensures |s| == 23 && s[0] == '{' && s[1] == '"' && s[2] == 'f' && s[3] == 'o' && s[4] == 'o' && s[5] == '"'
  {
  }

  lemma {:induction false} NestedObjectCharsPart2(s: string)
    requires Is(s, NestedObjectInput)
    ensures |s| == 23 && s[6] == ':' && s[7] == '{' && s[8] == '"' && s[9] == 'b' && s[10] == 'a' && s[11] == 'r'
  {
  }

  lemma {:induction false} NestedObjectCharsPart3(s: string)
    requires Is(s, NestedObjectInput)
    ensures |s| == 23 && s[12] == '"' && s[13] == ':'
  {
  }

  lemma {:induction false} NestedObjectSum(s: string)
    requires Is(s, NestedObjectInput)
    ensures |s| == 23 && s[14] == '(' && s[15] == '5' && s[16] == ' ' && s[17] == '+' && s[18] == ' '
    ensures s[19] == '5' && s[20] == ')' && s[21] == '}' && s[22] == '}'
  {
    NestedObjectSumPart1(s);
    NestedObjectSumPart2(s);
  }

  lemma {:induction false} NestedObjectSumPart1(s: string)
    requires Is(s, NestedObjectInput)
    ensures |s| == 23 && s[14] == '(' && s[15] == '5' && s[16] == ' ' && s[17] == '+' && s[18] == ' ' && s[19] == '5'
  {
  }

  lemma {:induction false} NestedObjectSumPart2(s: string)
    requires Is(s, NestedObjectInput)
    ensures |s| == 23 && s[20] == ')' && s[21] == '}' && s[22] == '}'
  {
  }

  lemma {:induction false} NestedObjectInnerKey(s: string)
    requires Is(s, NestedObjectInput)
    ensures ParseElement(s, 8, false) == Ok(Literal(Str("bar")), 13)
  {
    NestedObjectChars(s);
    StringElement(s, 8, 12, false);
  }

  lemma {:induction false} NestedObjectInnerValue(s: string)
    requires Is(s, NestedObjectInput)
    ensures ParseElement(s, 14, false) == Ok(FiveAndFive, 21)
  {
    NestedObjectSum(s);
    FiveAndFiveElement(s, 14, false);
  }

  lemma {:induction false} NestedObjectInnerEntries(s: string)
    requires Is(s, NestedObjectInput)
    ensures Entries(s, 8, false, 7) == Ok([InnerEntry], 22)
  {
    NestedObjectChars(s);
    NestedObjectInnerEntry(s);
    SkipNothing(s, 21);
    EntriesLast(s, 8, false, 7, InnerEntry, 21, 21);
  }

  lemma {:induction false} NestedObjectInnerEntry(s: string)
    requires Is(s, NestedObjectInput)
    ensures ParseEntry(s, 8, false, 7) == Ok(InnerEntry, 21)
  {
    hide ParseEntry, EntryValue, ParseElement, ParseQuery, ParseOperand, ParseTerm, Entries, Elements;
    NestedObjectColons(s);
    NestedObjectInnerKey(s);
    NestedObjectInnerValue(s);
    Tight(s, 13, 14);
    EntryParsed(s, 8, false, 7, Literal(Str("bar")), 13, 13, 14, FiveAndFive, 21);
  }

  lemma {:induction false} NestedObjectColons(s: string)
    requires Is(s, NestedObjectInput)
    ensures |s| == 23 && s[6] == ':' && s[7] == '{' && s[13] == ':' && s[14] == '('
  {
    NestedObjectColonsPart1(s);
  }

  lemma {:induction false} NestedObjectColonsPart1(s: string)
    requires Is(s, NestedObjectInput)
    ensures |s| == 23 && s[6] == ':' && s[7] == '{' && s[13] == ':' && s[14] == '('
  {
  }

  lemma {:induction false} NestedObjectInner(s: string)
    requires Is(s, NestedObjectInput)
    ensures ParseElement(s, 7, false) == Ok(DynObject([InnerEntry]), 22)
  {
    NestedObjectChars(s);
    SkipNothing(s, 8);
    NestedObjectInnerEntries(s);
    ObjectParsed(s, 7, false, 8, [InnerEntry], 22);
    assert !StaticEntry([InnerEntry][0]);
  }

  lemma {:induction false} NestedObjectKey(s: string)
    requires Is(s, NestedObjectInput)
    ensures ParseElement(s, 1, false) == Ok(Literal(Str("foo")), 6)
  {
    NestedObjectChars(s);
    StringElement(s, 1, 5, false);
  }

  lemma {:induction false} NestedObjectEntries(s: string)
    requires Is(s, NestedObjectInput)
    ensures Entries(s, 1, false, 0) == Ok([OuterEntry], 23)
  {
    NestedObjectChars(s);
    NestedObjectSum(s);
    NestedObjectInner(s);
    NestedObjectKey(s);
    SkipNothing(s, 6);
    SkipNothing(s, 7);
    SkipNothing(s, 22);
    EntryParsed(s, 1, false, 0, Literal(Str("foo")), 6, 6, 7, DynObject([InnerEntry]), 22);
    EntriesLast(s, 1, false, 0, OuterEntry, 22, 22);
  }

  lemma {:induction false} NestedObjectParsed(s: string)
    requires Is(s, NestedObjectInput)
    ensures Parse(s) == Parsed(Some(DynObject([OuterEntry])), [], None)
  {
    NestedObjectChars(s);
    SkipNothing(s, 0);
    SkipNothing(s, 1);
    NestedObjectEntries(s);
    ObjectParsed(s, 0, false, 1, [OuterEntry], 23);
    assert !StaticEntry([OuterEntry][0]);
    WholeLiteral(s, DynObject([OuterEntry]));
  }

  lemma {:induction false} NestedObjectEvaluates(ctx: Ctx)
    ensures Exec(DynObject([OuterEntry]), ctx) == Success(Object(map["foo" := Object(map["bar" := Number(10.0)])]))
  {
    FiveAndFiveEvaluates(ctx);
    EntryKeyThenValue(InnerEntry, ctx);
    OneEntryObject(InnerEntry, ctx, "bar", Number(10.0));
    EntryKeyThenValue(OuterEntry, ctx);
    OneEntryObject(OuterEntry, ctx, "foo", Object(map["bar" := Number(10.0)]));
  }

  /** An inner object is evaluated as the outer entry's value. */
  lemma {:induction false} NestedObject(s: string)
    requires Is(s, NestedObjectInput)
    ensures Parse(s) == Parsed(Some(DynObject([OuterEntry])), [], None)
    ensures Exec(DynObject([OuterEntry]), NoMessages)
            == Success(Object(map["foo" := Object(map["bar" := Number(10.0)])]))
  {
    NestedObjectParsed(s);
    NestedObjectEvaluates(NoMessages);
  }

  // ---------------------------------------------------------------------
  // `["foo",[(5 + 5),"bar"],null]`: an array inside an array.

  const NestedArrayInput := "[\"foo\",[(5 + 5),\"bar\"],null]"

  const InnerElements := [FiveAndFive, Literal(Str("bar"))]

  const OuterElements := [Literal(Str("foo")), DynArray(InnerElements), Literal(Null)]

  lemma {:induction false} NestedArrayChars(s: string)
    requires Is(s, NestedArrayInput)
    ensures |s| == 28 && s[0] == '[' && s[1] == '"' && s[2..5] == "foo" && s[5] == '"' && s[6] == ','
    ensures s[7] == '[' && s[8] == '(' && s[9] == '5' && s[10] == ' ' && s[11] == '+' && s[12] == ' '
    ensures s[13] == '5' && s[14] == ')' && s[15] == ','
  {
    NestedArrayCharsPart1(s);
    NestedArrayCharsPart2(s);
    NestedArrayCharsPart3(s);
    FooAt(s, 2, 5);
  }

  lemma {:induction false} NestedArrayCharsPart1(s: string)
    requires Is(s, NestedArrayInput)
    ensures |s| == 28 && s[0] == '[' && s[1] == '"' && s[2] == 'f' && s[3] == 'o' && s[4] == 'o' && s[5] == '"'
  {
  }

  lemma {:induction false} NestedArrayCharsPart2(s: string)
    requires Is(s, NestedArrayInput)
    ensures |s| == 28 && s[6] == ',' && s[7] == '[' && s[8] == '(' && s[9] == '5' && s[10] == ' ' && s[11] == '+'
  {
  }

  lemma {:induction false} NestedArrayCharsPart3(s: string)
    requires Is(s, NestedArrayInput)
    ensures |s| == 28 && s[12] == ' ' && s[13] == '5' && s[14] == ')' && s[15] == ','
  {
  }

  lemma {:induction false} NestedArrayTail(s: string)
    requires Is(s, NestedArrayInput)
    ensures |s| == 28 && s[16] == '"' && s[17..20] == "bar" && s[20] == '"' && s[21] == ']' && s[22] == ','
    ensures s[23] == 'n' && s[23..27] == "null" && s[27] == ']'
  {
    NestedArrayTailPart1(s);
    NestedArrayTailPart2(s);
    BarAt(s, 17, 20);
    NullAt(s, 23, 27);
  }

  lemma {:induction false} NestedArrayTailPart1(s: string)
    requires Is(s, NestedArrayInput)
    ensures |s| == 28 && s[16] == '"' && s[17] == 'b' && s[18] == 'a' && s[19] == 'r' && s[20] == '"' && s[21] == ']'
  {
  }

  lemma {:induction false} NestedArrayTailPart2(s: string)
    requires Is(s, NestedArrayInput)
    ensures |s| == 28 && s[22] == ',' && s[23] == 'n' && s[24] == 'u' && s[25] == 'l' && s[26] == 'l' && s[27] == ']'
  {
  }

  lemma {:induction false} NestedArrayInnerList(s: string)
    requires Is(s, NestedArrayInput)
    ensures Elements(s, 8, false) == Ok(InnerElements, 22)
  {
    hide ParseEntry, EntryValue, ParseElement, ParseQuery, ParseOperand, ParseTerm, Entries, Elements;
    NestedArrayComma(s);
    NestedArrayInnerParts(s);
    NestedArrayInnerLast(s);
    SkipNothing(s, 15);
    SkipNothing(s, 16);
    ElementsNext(s, 8, false, FiveAndFive, 15, 15, 16, [Literal(Str("bar"))], 22);
    assert [FiveAndFive] + [Literal(Str("bar"))] == InnerElements;
  }

  lemma {:induction false} NestedArrayComma(s: string)
    requires Is(s, NestedArrayInput)
    ensures |s| == 28 && s[15] == ',' && s[16] == '"'
  {
    NestedArrayCommaPart1(s);
  }

  lemma {:induction false} NestedArrayCommaPart1(s: string)
    requires Is(s, NestedArrayInput)
    ensures |s| == 28 && s[15] == ',' && s[16] == '"'
  {
  }

  lemma {:induction false} NestedArrayInnerParts(s: string)
    requires Is(s, NestedArrayInput)
    ensures ParseElement(s, 8, false) == Ok(FiveAndFive, 15)
  {
    NestedArrayChars(s);
    FiveAndFiveElement(s, 8, false);
  }

  lemma {:induction false} NestedArrayInnerLast(s: string)
    requires Is(s, NestedArrayInput)
    ensures Elements(s, 16, false) == Ok([Literal(Str("bar"))], 22)
  {
    NestedArrayTail(s);
    StringElement(s, 16, 20, false);
    SkipNothing(s, 21);
    ElementsLast(s, 16, false, Literal(Str("bar")), 21, 21);
  }

  lemma {:induction false} NestedArrayInner(s: string)
    requires Is(s, NestedArrayInput)
    ensures ParseElement(s, 7, false) == Ok(DynArray(InnerElements), 22)
  {
    NestedArrayChars(s);
    SkipNothing(s, 8);
    NestedArrayInnerList(s);
    ArrayParsed(s, 7, false, 8, InnerElements, 22);
    assert !InnerElements[0].Literal?;
  }

  lemma {:induction false} NestedArrayLast(s: string)
    requires Is(s, NestedArrayInput)
    ensures Elements(s, 23, false) == Ok([Literal(Null)], 28)
  {
    NestedArrayTail(s);
    NullElement(s, 23, false);
    SkipNothing(s, 27);
    ElementsLast(s, 23, false, Literal(Null), 27, 27);
  }

  lemma {:induction false} NestedArrayKey(s: string)
    requires Is(s, NestedArrayInput)
    ensures ParseElement(s, 1, false) == Ok(Literal(Str("foo")), 6)
  {
    NestedArrayChars(s);
    StringElement(s, 1, 5, false);
  }

  lemma {:induction false} NestedArrayList(s: string)
    requires Is(s, NestedArrayInput)
    ensures Elements(s, 1, false) == Ok(OuterElements, 28)
  {
    NestedArrayChars(s);
    Tight(s, 6, 7);
    NestedArrayKey(s);
    NestedArrayRest(s);
    ElementsNext(s, 1, false, Literal(Str("foo")), 6, 6, 7, [DynArray(InnerElements), Literal(Null)], 28);
    assert [Literal(Str("foo"))] + [DynArray(InnerElements), Literal(Null)] == OuterElements;
  }

  lemma {:induction false} NestedArrayRest(s: string)
    requires Is(s, NestedArrayInput)
    ensures Elements(s, 7, false) == Ok([DynArray(InnerElements), Literal(Null)], 28)
  {
    NestedArrayTail(s);
    Tight(s, 22, 23);
    NestedArrayInner(s);
    NestedArrayLast(s);
    ElementsNext(s, 7, false, DynArray(InnerElements), 22, 22, 23, [Literal(Null)], 28);
    assert [DynArray(InnerElements)] + [Literal(Null)] == [DynArray(InnerElements), Literal(Null)];
  }

  lemma {:induction false} NestedArrayParsed(s: string)
    requires Is(s, NestedArrayInput)
    ensures Parse(s) == Parsed(Some(DynArray(OuterElements)), [], None)
  {
    NestedArrayChars(s);
    SkipNothing(s, 0);
    SkipNothing(s, 1);
    NestedArrayList(s);
    ArrayParsed(s, 0, false, 1, OuterElements, 28);
    assert !OuterElements[1].Literal?;
    WholeLiteral(s, DynArray(OuterElements));
  }

  lemma {:induction false} NestedArrayInnerEvaluates(ctx: Ctx)
    ensures Exec(DynArray(InnerElements), ctx) == Success(Array([Number(10.0), Str("bar")]))
  {
    FiveAndFiveEvaluates(ctx);
    var es := InnerElements;
    assert Exec(es[1], ctx) == Success(Str("bar"));
    ArrayOfValues(es, ctx);
    var a := Exec(DynArray(es), ctx).value;
    assert a.elems == [Number(10.0), Str("bar")];
  }

  lemma {:induction false} NestedArrayEvaluates(ctx: Ctx)
    ensures Exec(DynArray(OuterElements), ctx) == Success(Array([Str("foo"), Array([Number(10.0), Str("bar")]), Null]))
  {
    NestedArrayInnerEvaluates(ctx);
    var es := OuterElements;
    assert Exec(es[0], ctx) == Success(Str("foo")) && Exec(es[2], ctx) == Success(Null);
    ArrayOfValues(es, ctx);
    var a := Exec(DynArray(es), ctx).value;
    assert a.elems == [Str("foo"), Array([Number(10.0), Str("bar")]), Null];
  }

  /** An inner array is evaluated into a nested array value. */
  lemma {:induction false} NestedArray(s: string)
    requires Is(s, NestedArrayInput)
    ensures Parse(s) == Parsed(Some(DynArray(OuterElements)), [], None)
    ensures Exec(DynArray(OuterElements), NoMessages) == Success(Array([Str("foo"), Array([Number(10.0), Str("bar")]), Null]))
  {
    NestedArrayParsed(s);
    NestedArrayEvaluates(NoMessages);
  }

  // ---------------------------------------------------------------------
  // `["foo",(5 + "not a number"),"bar"]`: an element that fails.

  const BadArrayElementInput := "[\"foo\",(5 + \"not a number\"),\"bar\"]"

  const BadElements := [Literal(Str("foo")), FiveAndText, Literal(Str("bar"))]

  lemma {:induction false} BadArrayElementChars(s: string)
    requires Is(s, BadArrayElementInput)
    ensures |s| == 34 && s[0] == '[' && s[1] == '"' && s[2..5] == "foo" && s[5] == '"' && s[6] == ','
    ensures s[7] == '(' && s[8] == '5' && s[9] == ' ' && s[10] == '+' && s[11] == ' ' && s[12] == '"'
  {
    BadArrayElementCharsPart1(s);
    BadArrayElementCharsPart2(s);
    BadArrayElementCharsPart3(s);
    FooAt(s, 2, 5);
  }

  lemma {:induction false} BadArrayElementCharsPart1(s: string)
    requires Is(s, BadArrayElementInput)
    ensures |s| == 34 && s[0] == '[' && s[1] == '"' && s[2] == 'f' && s[3] == 'o' && s[4] == 'o' && s[5] == '"'
  {
  }

  lemma {:induction false} BadArrayElementCharsPart2(s: string)
    requires Is(s, BadArrayElementInput)
    ensures |s| == 34 && s[6] == ',' && s[7] == '(' && s[8] == '5' && s[9] == ' ' && s[10] == '+' && s[11] == ' '
  {
  }

  lemma {:induction false} BadArrayElementCharsPart3(s: string)
    requires Is(s, BadArrayElementInput)
    ensures |s| == 34 && s[12] == '"'
  {
  }

  lemma {:induction false} BadArrayElementHead(s: string)
    requires Is(s, BadArrayElementInput)
    ensures |s| == 34 && s[0] == '[' && s[1] == '"' && s[2] == 'f' && s[3] == 'o' && s[4] == 'o' && s[5] == '"'
    ensures s[6] == ',' && s[7] == '(' && s[8] == '5' && s[9] == ' ' && s[10] == '+' && s[11] == ' ' && s[12] == '"'
  {
    BadArrayElementHeadPart1(s);
    BadArrayElementHeadPart2(s);
    BadArrayElementHeadPart3(s);
  }

  lemma {:induction false} BadArrayElementHeadPart1(s: string)
    requires Is(s, BadArrayElementInput)
    ensures |s| == 34 && s[0] == '[' && s[1] == '"' && s[2] == 'f' && s[3] == 'o' && s[4] == 'o' && s[5] == '"'
  {
  }

  lemma {:induction false} BadArrayElementHeadPart2(s: string)
    requires Is(s, BadArrayElementInput)
    ensures |s| == 34 && s[6] == ',' && s[7] == '(' && s[8] == '5' && s[9] == ' ' && s[10] == '+' && s[11] == ' '
  {
  }

  lemma {:induction false} BadArrayElementHeadPart3(s: string)
    requires Is(s, BadArrayElementInput)
    ensures |s| == 34 && s[12] == '"'
  {
  }

  lemma {:induction false} BadArrayElementSumChars(s: string)
    requires Is(s, BadArrayElementInput)
    ensures |s| == 34 && s[7] == '(' && s[8] == '5' && s[9] == ' ' && s[10] == '+' && s[11] == ' ' && s[12] == '"'
  {
    BadArrayElementSumCharsPart1(s);
  }

  lemma {:induction false} BadArrayElementSumCharsPart1(s: string)
    requires Is(s, BadArrayElementInput)
    ensures |s| == 34 && s[7] == '(' && s[8] == '5' && s[9] == ' ' && s[10] == '+' && s[11] == ' ' && s[12] == '"'
  {
  }

  lemma {:induction false} BadArrayElementClose(s: string)
    requires Is(s, BadArrayElementInput)
    ensures |s| == 34 && s[25] == '"' && s[26] == ')' && s[27] == ','
  {
    BadArrayElementClosePart1(s);
  }

  lemma {:induction false} BadArrayElementClosePart1(s: string)
    requires Is(s, BadArrayElementInput)
    ensures |s| == 34 && s[25] == '"' && s[26] == ')' && s[27] == ','
  {
  }

  lemma {:induction false} BadArrayElementText(s: string)
    requires Is(s, BadArrayElementInput)
    ensures |s| == 34 && s[13..25] == "not a number"
  {
    BadArrayElementTextPart1(s);
    BadArrayElementTextPart2(s);
    NotANumberAt(s, 13, 25);
  }

  lemma {:induction false} BadArrayElementTextPart1(s: string)
    requires Is(s, BadArrayElementInput)
    ensures |s| == 34 && s[13] == 'n' && s[14] == 'o' && s[15] == 't' && s[16] == ' ' && s[17] == 'a' && s[18] == ' '
  {
  }

  lemma {:induction false} BadArrayElementTextPart2(s: string)
    requires Is(s, BadArrayElementInput)
    ensures |s| == 34 && s[19] == 'n' && s[20] == 'u' && s[21] == 'm' && s[22] == 'b' && s[23] == 'e' && s[24] == 'r'
  {
  }

  lemma {:induction false} BadArrayElementTail(s: string)
    requires Is(s, BadArrayElementInput)
    ensures |s| == 34 && s[28] == '"' && s[29..32] == "bar" && s[32] == '"' && s[33] == ']'
  {
    BarAt(s, 29, 32);
  }

  lemma {:induction false} BadArrayElementSum(s: string)
    requires Is(s, BadArrayElementInput)
    ensures ParseElement(s, 7, false) == Ok(FiveAndText, 27)
  {
    BadArrayElementChars(s);
    BadArrayElementClose(s);
    BadArrayElementText(s);
    FiveAndTextElement(s, 7, false);
  }

  lemma {:induction false} BadArrayElementLast(s: string)
    requires Is(s, BadArrayElementInput)
    ensures Elements(s, 28, false) == Ok([Literal(Str("bar"))], 34)
  {
    BadArrayElementTail(s);
    StringElement(s, 28, 32, false);
    SkipNothing(s, 33);
    ElementsLast(s, 28, false, Literal(Str("bar")), 33, 33);
  }

  lemma {:induction false} BadArrayElementKey(s: string)
    requires Is(s, BadArrayElementInput)
    ensures ParseElement(s, 1, false) == Ok(Literal(Str("foo")), 6)
  {
    BadArrayElementChars(s);
    StringElement(s, 1, 5, false);
  }

  lemma {:induction false} BadArrayElementRest(s: string)
    requires Is(s, BadArrayElementInput)
    ensures Elements(s, 7, false) == Ok([FiveAndText] + [Literal(Str("bar"))], 34)
  {
    hide ParseEntry, EntryValue, ParseElement, ParseQuery, ParseOperand, ParseTerm, Entries, Elements;
    BadArrayElementChars(s);
    BadArrayElementClose(s);
    BadArrayElementTail(s);
    BadArrayElementSum(s);
    BadArrayElementLast(s);
    SkipNothing(s, 27);
    SkipNothing(s, 28);
    ElementsNext(s, 7, false, FiveAndText, 27, 27, 28, [Literal(Str("bar"))], 34);
  }

  lemma {:induction false} BadArrayElementList(s: string)
    requires Is(s, BadArrayElementInput)
    ensures Elements(s, 1, false) == Ok(BadElements, 34)
  {
    hide ParseEntry, EntryValue, ParseElement, ParseQuery, ParseOperand, ParseTerm, Entries, Elements;
    BadArrayElementChars(s);
    BadArrayElementKey(s);
    BadArrayElementRest(s);
    SkipNothing(s, 6);
    SkipNothing(s, 7);
    ElementsNext(s, 1, false, Literal(Str("foo")), 6, 6, 7, [FiveAndText] + [Literal(Str("bar"))], 34);
    assert [Literal(Str("foo"))] + ([FiveAndText] + [Literal(Str("bar"))]) == BadElements;
  }

  lemma {:induction false} BadArrayElementParsed(s: string)
    requires Is(s, BadArrayElementInput)
    ensures Parse(s) == Parsed(Some(DynArray(BadElements)), [], None)
  {
    BadArrayElementChars(s);
    SkipNothing(s, 0);
    SkipNothing(s, 1);
    BadArrayElementList(s);
    ArrayParsed(s, 0, false, 1, BadElements, 34);
    assert !BadElements[1].Literal?;
    WholeLiteral(s, DynArray(BadElements));
  }

  lemma {:induction false} BadArrayElementEvaluates(ctx: Ctx)
    ensures Exec(DynArray(BadElements), ctx) == Failure("expected number value, found string: not a number")
  {
    FiveAndTextEvaluates(ctx);
    var es := BadElements;
    assert Exec(es[0], ctx) == Success(Str("foo"));
    assert FirstFailure(es, ctx, 1);
    ArrayErrorUnwrapped(es, ctx, 1);
  }

  /** An element's error is the array's error, unwrapped. */
  lemma {:induction false} BadArrayElement(s: string)
    requires Is(s, BadArrayElementInput)
    ensures Parse(s) == Parsed(Some(DynArray(BadElements)), [], None)
    ensures Exec(DynArray(BadElements), NoMessages) == Failure("expected number value, found string: not a number")
  {
    BadArrayElementParsed(s);
    BadArrayElementEvaluates(NoMessages);
  }

  // ---------------------------------------------------------------------
  // `{"foo":(5 + "not a number")}`: a value that fails.

  const BadObjectValueInput := "{\"foo\":(5 + \"not a number\")}"

  const BadEntry := Entry(Literal(Str("foo")), FiveAndText)

  lemma {:induction false} BadObjectValueChars(s: string)
    requires Is(s, BadObjectValueInput)
    ensures |s| == 28 && s[0] == '{' && s[1] == '"' && s[2..5] == "foo" && s[5] == '"' && s[6] == ':'
    ensures s[7] == '(' && s[8] == '5' && s[9] == ' ' && s[10] == '+' && s[11] == ' ' && s[12] == '"'
    ensures s[25] == '"' && s[26] == ')' && s[27] == '}'
  {
    BadObjectValueCharsPart1(s);
    BadObjectValueCharsPart2(s);
    BadObjectValueCharsPart3(s);
    FooAt(s, 2, 5);
  }

  lemma {:induction false} BadObjectValueCharsPart1(s: string)
    requires Is(s, BadObjectValueInput)
    ensures |s| == 28 && s[0] == '{' && s[1] == '"' && s[2] == 'f' && s[3] == 'o' && s[4] == 'o' && s[5] == '"'
  {
  }

  lemma {:induction false} BadObjectValueCharsPart2(s: string)
    requires Is(s, BadObjectValueInput)
    ensures |s| == 28 && s[6] == ':' && s[7] == '(' && s[8] == '5' && s[9] == ' ' && s[10] == '+' && s[11] == ' '
  {
  }

  lemma {:induction false} BadObjectValueCharsPart3(s: string)
    requires Is(s, BadObjectValueInput)
    ensures |s| == 28 && s[12] == '"' && s[25] == '"' && s[26] == ')' && s[27] == '}'
  {
  }

  lemma {:induction false} BadObjectValueText(s: string)
    requires Is(s, BadObjectValueInput)
    ensures |s| == 28 && s[13..25] == "not a number"
  {
    BadObjectValueTextPart1(s);
    BadObjectValueTextPart2(s);
    NotANumberAt(s, 13, 25);
  }

  lemma {:induction false} BadObjectValueTextPart1(s: string)
    requires Is(s, BadObjectValueInput)
    ensures |s| == 28 && s[13] == 'n' && s[14] == 'o' && s[15] == 't' && s[16] == ' ' && s[17] == 'a' && s[18] == ' '
  {
  }

  lemma {:induction false} BadObjectValueTextPart2(s: string)
    requires Is(s, BadObjectValueInput)
    ensures |s| == 28 && s[19] == 'n' && s[20] == 'u' && s[21] == 'm' && s[22] == 'b' && s[23] == 'e' && s[24] == 'r'
  {
  }

  lemma {:induction false} BadObjectValueKey(s: string)
    requires Is(s, BadObjectValueInput)
    ensures ParseElement(s, 1, false) == Ok(Literal(Str("foo")), 6)
  {
    BadObjectValueChars(s);
    StringElement(s, 1, 5, false);
  }

  lemma {:induction false} BadObjectValueValue(s: string)
    requires Is(s, BadObjectValueInput)
    ensures ParseElement(s, 7, false) == Ok(FiveAndText, 27)
  {
    BadObjectValueChars(s);
    BadObjectValueText(s);
    FiveAndTextElement(s, 7, false);
  }

  lemma {:induction false} BadObjectValueColon(s: string)
    requires Is(s, BadObjectValueInput)
    ensures |s| == 28 && s[6] == ':' && s[7] == '('
  {
  }

  lemma {:induction false} BadObjectValueEntry(s: string)
    requires Is(s, BadObjectValueInput)
    ensures ParseEntry(s, 1, false, 0) == Ok(BadEntry, 27)
  {
    hide ParseEntry, EntryValue, ParseElement, ParseQuery, ParseOperand, ParseTerm;
    BadObjectValueColon(s);
    BadObjectValueKey(s);
    BadObjectValueValue(s);
    Tight(s, 6, 7);
    EntryParsed(s, 1, false, 0, Literal(Str("foo")), 6, 6, 7, FiveAndText, 27);
  }

  lemma {:induction false} BadObjectValueEntries(s: string)
    requires Is(s, BadObjectValueInput)
    ensures Entries(s, 1, false, 0) == Ok([BadEntry], 28)
  {
    BadObjectValueChars(s);
    BadObjectValueEntry(s);
    SkipNothing(s, 27);
    EntriesLast(s, 1, false, 0, BadEntry, 27, 27);
  }

  lemma {:induction false} BadObjectValueParsed(s: string)
    requires Is(s, BadObjectValueInput)
    ensures Parse(s) == Parsed(Some(DynObject([BadEntry])), [], None)
  {
    BadObjectValueChars(s);
    SkipNothing(s, 0);
    SkipNothing(s, 1);
    BadObjectValueEntries(s);
    ObjectParsed(s, 0, false, 1, [BadEntry], 28);
    assert !StaticEntry([BadEntry][0]);
    WholeLiteral(s, DynObject([BadEntry]));
  }

  /** The failure of the row: the key's wrapping around the sum's failure. */
  const BadObjectValueError := "failed to resolve 'foo' value: " + "expected number value, found string: not a number"

  lemma {:induction false} BadObjectValueMessage()
    ensures "failed to resolve '" + "foo" + "' value: " + "expected number value, found string: not a number"
      == BadObjectValueError
  {
    WrappedPrefix();
  }

  lemma {:induction false} WrappedPrefix()
    ensures "failed to resolve '" + "foo" + "' value: " == "failed to resolve 'foo' value: "
  {
    assert "failed to resolve '" + "foo" == "failed to resolve 'foo";
  }

  lemma {:induction false} BadObjectValueEvaluates(ctx: Ctx)
    ensures Exec(DynObject([BadEntry]), ctx)
      == Failure(BadObjectValueError)
  {
    FiveAndTextEvaluates(ctx);
    assert Exec([BadEntry][0].key, ctx) == Success(Str("foo"));
    ObjectValueErrorWrapped([BadEntry], ctx, 0, "foo", "expected number value, found string: not a number");
    BadObjectValueMessage();
  }

  /** A value's error is wrapped with the key it belongs to. */
  lemma {:induction false} BadObjectValue(s: string)
    requires Is(s, BadObjectValueInput)
    ensures Parse(s) == Parsed(Some(DynObject([BadEntry])), [], None)
    ensures Exec(DynObject([BadEntry]), NoMessages)
      == Failure(BadObjectValueError)
  {
    BadObjectValueParsed(s);
    BadObjectValueEvaluates(NoMessages);
  }
}
