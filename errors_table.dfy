/**
 * The error table of the query parser: for each input, the failure the
 * parse ends with and its rendering as `line L char C: <message>`.
 *
 * Each row is proved in layers: the characters of the input, the scanning
 * facts (blanks skipped, identifiers read), the parse of its parts, the
 * rendered message, and finally the row itself, which only chains them.
 */
module ErrorsTable {
  import opened Wrappers
  import opened Values
  import opened Ast
  import opened Registry
  import opened Combinators
  import opened QueryParser
  import opened ParserSteps
  import opened ParserFailures
  import opened ParserTerms
  import opened TableText

  /** What a missing argument is reported as. */
  const ArgumentKinds := ["boolean", "number", "quoted string", "query"]

  const ArgumentMissingText := "required: expected boolean, number, quoted string, or query"

  /** The arity message of a method that takes exactly one argument and got
      none. */
  lemma {:induction false} ExactlyOneText(ps: seq<Param>)
    ensures ArityError(Signature(1, 1, ps), 0) == Some("expected 1 arguments, received: 0")
  {
    assert NatToString(1) == "1" && NatToString(0) == "0";
    assert "expected " + "1" == "expected 1";
    assert "expected 1" + " arguments, received: " == "expected 1 arguments, received: ";
    assert "expected 1 arguments, received: " + "0" == "expected 1 arguments, received: 0";
  }

  // ---------------------------------------------------------------------
  // `not a function` in the legacy grammar: a bare word must be a call.

  const BadFunctionInput := "not a function"

  lemma {:induction false} BadFunctionChars(s: string)
    requires Is(s, BadFunctionInput)
    ensures |s| == 14 && s[0] == 'n' && s[1] == 'o' && s[2] == 't' && s[3] == ' '
  {
    BadFunctionCharsPart1(s);
  }

  lemma {:induction false} BadFunctionCharsPart1(s: string)
    requires Is(s, BadFunctionInput)
    ensures |s| == 14 && s[0] == 'n' && s[1] == 'o' && s[2] == 't' && s[3] == ' '
  {
  }

  lemma {:induction false} BadFunctionLine(s: string)
    requires Is(s, BadFunctionInput)
    ensures OnFirstLine(s, 3)
  {
  }

  lemma {:induction false} BadFunctionWord(s: string)
    requires Is(s, BadFunctionInput)
    ensures PlainWord(s, 0)
  {
    BadFunctionChars(s);
    NotKeyword(s, 0, "true");
    NotKeyword(s, 0, "false");
    KeywordDiffersAt(s, 0, "null", 1);
    NotMatchKeyword(s, 0);
  }

  lemma {:induction false} BadFunctionScan(s: string)
    requires Is(s, BadFunctionInput)
    ensures SkipBlankAndComments(s, 0) == 0 && ScanIdent(s, 0) == 3
  {
    BadFunctionChars(s);
    SkipNothing(s, 0);
    IdentRun(s, 0, 3);
  }

  lemma {:induction false} BadFunctionMessage(s: string)
    requires OnFirstLine(s, 3)
    ensures ErrorAtPosition(Expected(3, false, ["function arguments"]), s)
            == "line 1 char 4: " + "expected function arguments"
  {
    FirstLineError(s, Expected(3, false, ["function arguments"]), "line 1 char 4: ", "expected function arguments");
  }

  /** The legacy grammar has no bare paths, so the word wants arguments. */
  lemma {:induction false} BadFunction(s: string)
    requires Is(s, BadFunctionInput)
    ensures TryParse(s, true) == Rejected(Expected(3, false, ["function arguments"]))
    ensures ErrorAtPosition(Expected(3, false, ["function arguments"]), s)
            == "line 1 char 4: " + "expected function arguments"
  {
    BadFunctionChars(s);
    BadFunctionWord(s);
    BadFunctionScan(s);
    var err := Expected(3, false, ["function arguments"]);
    BareWord(s, 0, 3);
    OperandFailsQuery(s, 0, true, err);
    RejectedWith(s, true, 0, err);
    BadFunctionLine(s);
    BadFunctionMessage(s);
  }

  // ---------------------------------------------------------------------
  // `not_a_function()`: a call to a name the registry does not know.

  const UnknownFunctionInput := "not_a_function()"

  lemma {:induction false} UnknownFunctionChars(s: string)
    requires Is(s, UnknownFunctionInput)
    ensures |s| == 16 && s[0..14] == "not_a_function" && s[14] == '(' && s[15] == ')'
  {
    UnknownFunctionCharsPart1(s);
    UnknownFunctionCharsPart2(s);
    UnknownFunctionCharsPart3(s);
    NotAFunctionAt(s, 0, 14);
  }

  lemma {:induction false} UnknownFunctionCharsPart1(s: string)
    requires Is(s, UnknownFunctionInput)
    ensures |s| == 16 && s[0] == 'n' && s[1] == 'o' && s[2] == 't' && s[3] == '_' && s[4] == 'a' && s[5] == '_'
  {
  }

  lemma {:induction false} UnknownFunctionCharsPart2(s: string)
    requires Is(s, UnknownFunctionInput)
    ensures |s| == 16 && s[6] == 'f' && s[7] == 'u' && s[8] == 'n' && s[9] == 'c' && s[10] == 't' && s[11] == 'i'
  {
  }

  lemma {:induction false} UnknownFunctionCharsPart3(s: string)
    requires Is(s, UnknownFunctionInput)
    ensures |s| == 16 && s[12] == 'o' && s[13] == 'n' && s[14] == '(' && s[15] == ')'
  {
  }

  lemma {:induction false} UnknownFunctionWord(s: string)
    requires Is(s, UnknownFunctionInput)
    ensures PlainWord(s, 0)
  {
    NotKeyword(s, 0, "true");
    NotKeyword(s, 0, "false");
    KeywordDiffersAt(s, 0, "null", 1);
    NotMatchKeyword(s, 0);
  }

  lemma {:induction false} UnknownFunctionScan(s: string)
    requires Is(s, UnknownFunctionInput)
    ensures SkipBlankAndComments(s, 0) == 0 && ScanIdent(s, 0) == 14
  {
    SkipNothing(s, 0);
    IdentRun(s, 0, 14);
  }

  lemma {:induction false} UnknownFunctionText()
    ensures CallError("function", "not_a_function", FunctionSignature("not_a_function"), [])
            == Some("unrecognised function 'not_a_function'")
  {
    assert "unrecognised " + "function" == "unrecognised function";
    assert "unrecognised function" + " '" == "unrecognised function '";
    assert "unrecognised function '" + "not_a_function" == "unrecognised function 'not_a_function";
    assert "unrecognised function 'not_a_function" + "'" == "unrecognised function 'not_a_function'";
  }

  lemma {:induction false} UnknownFunctionOperand(s: string)
    requires Is(s, UnknownFunctionInput)
    ensures ParseOperand(s, 0, false) == Fail(Custom(0, "unrecognised function 'not_a_function'"))
  {
    UnknownFunctionChars(s);
    UnknownFunctionWord(s);
    UnknownFunctionScan(s);
    NoArgs(s, 14, false);
    UnknownFunctionText();
    CallRejected(s, 0, 14, false, "not_a_function", [], 16, "unrecognised function 'not_a_function'");
  }

  lemma {:induction false} UnknownFunctionMessage(s: string)
    ensures ErrorAtPosition(Custom(0, "unrecognised function 'not_a_function'"), s)
            == "line 1 char 1: " + "unrecognised function 'not_a_function'"
  {
    var msg := "unrecognised function 'not_a_function'";
    FirstLineError(s, Custom(0, msg), "line 1 char 1: ", msg);
  }

  /** The unknown name is reported at its first character. */
  lemma {:induction false} UnknownFunction(s: string)
    requires Is(s, UnknownFunctionInput)
    ensures TryParse(s, false) == Rejected(Custom(0, "unrecognised function 'not_a_function'"))
    ensures ErrorAtPosition(Custom(0, "unrecognised function 'not_a_function'"), s)
            == "line 1 char 1: " + "unrecognised function 'not_a_function'"
  {
    var err := Custom(0, "unrecognised function 'not_a_function'");
    UnknownFunctionScan(s);
    UnknownFunctionOperand(s);
    OperandFailsQuery(s, 0, false, err);
    RejectedWith(s, false, 0, err);
    UnknownFunctionMessage(s);
  }

  // ---------------------------------------------------------------------
  // `json("foo` in the legacy grammar: the string argument never ends.

  const OpenStringArgInput := "json(\"foo"

  lemma {:induction false} OpenStringArgChars(s: string)
    requires Is(s, OpenStringArgInput)
    ensures |s| == 9 && s[0..4] == "json" && s[4] == '(' && s[5] == '"'
  {
    OpenStringArgCharsPart1(s);
    JsonAt(s, 0, 4);
  }

  lemma {:induction false} OpenStringArgCharsPart1(s: string)
    requires Is(s, OpenStringArgInput)
    ensures |s| == 9 && s[0] == 'j' && s[1] == 's' && s[2] == 'o' && s[3] == 'n' && s[4] == '(' && s[5] == '"'
  {
  }

  lemma {:induction false} OpenStringArgLine(s: string)
    requires Is(s, OpenStringArgInput)
    ensures OnFirstLine(s, 9) && forall k | 5 < k < 9 :: s[k] != '"' && s[k] != '\\'
  {
    assert s == OpenStringArgInput;
  }

  lemma {:induction false} OpenStringArgScan(s: string)
    requires Is(s, OpenStringArgInput)
    ensures SkipBlankAndComments(s, 0) == 0 && SkipBlankAndComments(s, 5) == 5
    ensures ScanIdent(s, 0) == 4 && PlainWord(s, 0)
  {
    OpenStringArgChars(s);
    SkipNothing(s, 0);
    SkipNothing(s, 5);
    CallWord(s, 0);
  }

  lemma {:induction false} OpenStringArgMessage(s: string)
    requires OnFirstLine(s, 9)
    ensures ErrorAtPosition(Expected(9, true, ["end quote"]), s)
            == "line 1 char 10: " + "required: expected end quote"
  {
    OneItemMessage(9, true, "end quote");
    FirstLineError(s, Expected(9, true, ["end quote"]), "line 1 char 10: ", "required: expected end quote");
  }

  /** The missing end quote is required one past the last character. */
  lemma {:induction false} OpenStringArg(s: string)
    requires Is(s, OpenStringArgInput)
    ensures TryParse(s, true) == Rejected(Expected(9, true, ["end quote"]))
    ensures ErrorAtPosition(Expected(9, true, ["end quote"]), s)
            == "line 1 char 10: " + "required: expected end quote"
  {
    OpenStringArgChars(s);
    OpenStringArgLine(s);
    OpenStringArgScan(s);
    var err := Expected(9, true, ["end quote"]);
    Unterminated(s, 5, true);
    ArgsFirstFails(s, 4, true, 5, err);
    CallArgsFail(s, 0, 4, true, err);
    OperandFailsQuery(s, 0, true, err);
    RejectedWith(s, true, 0, err);
    OpenStringArgMessage(s);
  }

  // ---------------------------------------------------------------------
  // `json` in the legacy grammar.

  const BareJsonInput := "json"

  lemma {:induction false} BareJsonChars(s: string)
    requires Is(s, BareJsonInput)
    ensures |s| == 4 && s[0..4] == "json" && OnFirstLine(s, 4)
  {
    assert s == BareJsonInput;
  }

  lemma {:induction false} BareJsonScan(s: string)
    requires Is(s, BareJsonInput)
    ensures SkipBlankAndComments(s, 0) == 0 && ScanIdent(s, 0) == 4 && PlainWord(s, 0)
  {
    BareJsonChars(s);
    SkipNothing(s, 0);
    CallWord(s, 0);
  }

  lemma {:induction false} BareJsonMessage(s: string)
    requires OnFirstLine(s, 4)
    ensures ErrorAtPosition(Expected(4, false, ["function arguments"]), s)
            == "line 1 char 5: " + "expected function arguments"
  {
    FirstLineError(s, Expected(4, false, ["function arguments"]), "line 1 char 5: ", "expected function arguments");
  }

  /** A known name without arguments is still not a call. */
  lemma {:induction false} BareJson(s: string)
    requires Is(s, BareJsonInput)
    ensures TryParse(s, true) == Rejected(Expected(4, false, ["function arguments"]))
    ensures ErrorAtPosition(Expected(4, false, ["function arguments"]), s)
            == "line 1 char 5: " + "expected function arguments"
  {
    BareJsonChars(s);
    BareJsonScan(s);
    var err := Expected(4, false, ["function arguments"]);
    BareWord(s, 0, 4);
    OperandFailsQuery(s, 0, true, err);
    RejectedWith(s, true, 0, err);
    BareJsonMessage(s);
  }

  // ---------------------------------------------------------------------
  // `json(`: no argument and no closing bracket.

  const OpenArgsInput := "json("

  lemma {:induction false} OpenArgsChars(s: string)
    requires Is(s, OpenArgsInput)
    ensures |s| == 5 && s[0..4] == "json" && s[4] == '(' && OnFirstLine(s, 5)
  {
    assert s == OpenArgsInput;
  }

  lemma {:induction false} OpenArgsScan(s: string)
    requires Is(s, OpenArgsInput)
    ensures SkipBlankAndComments(s, 0) == 0 && SkipBlankAndComments(s, 5) == 5
    ensures ScanIdent(s, 0) == 4 && PlainWord(s, 0)
  {
    OpenArgsChars(s);
    SkipNothing(s, 0);
    SpacesRun(s, 5, 5);
    CallWord(s, 0);
  }

  lemma {:induction false} OpenArgsMessage(s: string)
    requires OnFirstLine(s, 5)
    ensures ErrorAtPosition(Expected(5, true, ArgumentKinds), s) == "line 1 char 6: " + ArgumentMissingText
  {
    ArgumentMissingMessage(5);
    FirstLineError(s, Expected(5, true, ArgumentKinds), "line 1 char 6: ", ArgumentMissingText);
  }

  /** An argument is required right after the opening bracket. */
  lemma {:induction false} OpenArgs(s: string)
    requires Is(s, OpenArgsInput)
    ensures TryParse(s, false) == Rejected(Expected(5, true, ArgumentKinds))
    ensures ErrorAtPosition(Expected(5, true, ArgumentKinds), s) == "line 1 char 6: " + ArgumentMissingText
  {
    OpenArgsChars(s);
    OpenArgsScan(s);
    var e0 := Expected(5, false, ArgumentKinds);
    var err := Required(e0);
    ArgMissing(s, 5, false);
    ArgsFirstFails(s, 4, false, 5, e0);
    CallArgsFail(s, 0, 4, false, err);
    OperandFailsQuery(s, 0, false, err);
    RejectedWith(s, false, 0, err);
    OpenArgsMessage(s);
  }

  // ---------------------------------------------------------------------
  // `json(0,`: a second argument is required after the comma.

  const TrailingCommaInput := "json(0,"

  lemma {:induction false} TrailingCommaChars(s: string)
    requires Is(s, TrailingCommaInput)
    ensures |s| == 7 && s[0..4] == "json" && s[4] == '(' && s[5] == '0' && s[6] == ','
    ensures OnFirstLine(s, 7)
  {
    assert s == TrailingCommaInput;
  }

  lemma {:induction false} TrailingCommaScan(s: string)
    requires Is(s, TrailingCommaInput)
    ensures SkipBlankAndComments(s, 0) == 0 && SkipBlankAndComments(s, 5) == 5
    ensures SkipBlankAndComments(s, 6) == 6 && SkipBlankAndComments(s, 7) == 7
    ensures ScanIdent(s, 0) == 4 && PlainWord(s, 0)
  {
    TrailingCommaChars(s);
    SkipNothing(s, 0);
    SkipNothing(s, 5);
    SkipNothing(s, 6);
    SpacesRun(s, 7, 7);
    CallWord(s, 0);
  }

  lemma {:induction false} TrailingCommaFirst(s: string)
    requires Is(s, TrailingCommaInput)
    ensures ParseArg(s, 5, false) == Ok(Literal(Int64(0)), 6)
  {
    TrailingCommaChars(s);
    SingleDigit(s, 5);
    NumberTerm(s, 5, 0, 6, false);
  }

  lemma {:induction false} TrailingCommaMessage(s: string)
    requires OnFirstLine(s, 7)
    ensures ErrorAtPosition(Expected(7, true, ArgumentKinds), s) == "line 1 char 8: " + ArgumentMissingText
  {
    ArgumentMissingMessage(7);
    FirstLineError(s, Expected(7, true, ArgumentKinds), "line 1 char 8: ", ArgumentMissingText);
  }

  /** The missing argument is reported one past the comma. */
  lemma {:induction false} TrailingComma(s: string)
    requires Is(s, TrailingCommaInput)
    ensures TryParse(s, false) == Rejected(Expected(7, true, ArgumentKinds))
    ensures ErrorAtPosition(Expected(7, true, ArgumentKinds), s) == "line 1 char 8: " + ArgumentMissingText
  {
    TrailingCommaChars(s);
    TrailingCommaScan(s);
    TrailingCommaFirst(s);
    var e0 := Expected(7, false, ArgumentKinds);
    var err := Required(e0);
    ArgMissing(s, 7, false);
    ArgsSecondFails(s, 4, false, 5, Literal(Int64(0)), 6, 6, 7, e0);
    CallArgsFail(s, 0, 4, false, err);
    OperandFailsQuery(s, 0, false, err);
    RejectedWith(s, false, 0, err);
    TrailingCommaMessage(s);
  }

  // ---------------------------------------------------------------------
  // `json(5)` and `json(false)`: literal arguments of the wrong kind.

  /** The message for a literal that `json` does not take. */
  lemma {:induction false} StringParamText(v: Value)
    requires v.Int64? || v.Bool?
    ensures CallError("function", "json", FunctionSignature("json"), [Literal(v)])
            == Some("expected string argument, received " + KindName(v))
  {
    assert ParamError(StringParam, v) == Some("expected string argument, received " + KindName(v));
    assert LiteralArgError([StringParam], [Literal(v)], 0) == ParamError(StringParam, v);
  }

  const NumberArgInput := "json(5)"

  lemma {:induction false} NumberArgChars(s: string)
    requires Is(s, NumberArgInput)
    ensures |s| == 7 && s[0..4] == "json" && s[4] == '(' && s[5] == '5' && s[6] == ')'
  {
    NumberArgCharsPart1(s);
    NumberArgCharsPart2(s);
    JsonAt(s, 0, 4);
  }

  lemma {:induction false} NumberArgCharsPart1(s: string)
    requires Is(s, NumberArgInput)
    ensures |s| == 7 && s[0] == 'j' && s[1] == 's' && s[2] == 'o' && s[3] == 'n' && s[4] == '(' && s[5] == '5'
  {
  }

  lemma {:induction false} NumberArgCharsPart2(s: string)
    requires Is(s, NumberArgInput)
    ensures |s| == 7 && s[6] == ')'
  {
  }

  lemma {:induction false} NumberArgScan(s: string)
    requires Is(s, NumberArgInput)
    ensures SkipBlankAndComments(s, 0) == 0 && ScanIdent(s, 0) == 4 && PlainWord(s, 0)
  {
    NumberArgChars(s);
    SkipNothing(s, 0);
    CallWord(s, 0);
  }

  lemma {:induction false} NumberArgArgs(s: string)
    requires Is(s, NumberArgInput)
    ensures ParseArgs(s, 4, false) == Ok([Literal(Int64(5))], 7)
  {
    NumberArgChars(s);
    SingleDigit(s, 5);
    NumberTerm(s, 5, 5, 6, false);
    SingleArg(s, 4, false, Literal(Int64(5)), 6);
  }

  lemma {:induction false} NumberArgMessage(s: string)
    ensures ErrorAtPosition(Custom(0, "expected string argument, received int64"), s)
            == "line 1 char 1: " + "expected string argument, received int64"
  {
    var msg := "expected string argument, received int64";
    FirstLineError(s, Custom(0, msg), "line 1 char 1: ", msg);
  }

  /** A number where `json` takes a string is rejected at the call. */
  lemma {:induction false} NumberArg(s: string)
    requires Is(s, NumberArgInput)
    ensures TryParse(s, false) == Rejected(Custom(0, "expected string argument, received int64"))
    ensures ErrorAtPosition(Custom(0, "expected string argument, received int64"), s)
            == "line 1 char 1: " + "expected string argument, received int64"
  {
    NumberArgChars(s);
    NumberArgScan(s);
    NumberArgArgs(s);
    var msg := "expected string argument, received int64";
    StringParamText(Int64(5));
    assert "expected string argument, received " + "int64" == msg;
    CallRejected(s, 0, 4, false, "json", [Literal(Int64(5))], 7, msg);
    OperandFailsQuery(s, 0, false, Custom(0, msg));
    RejectedWith(s, false, 0, Custom(0, msg));
    NumberArgMessage(s);
  }

  const BooleanArgInput := "json(false)"

  lemma {:induction false} BooleanArgChars(s: string)
    requires Is(s, BooleanArgInput)
    ensures |s| == 11 && s[0..4] == "json" && s[4] == '(' && s[5] == 'f' && s[10] == ')'
    ensures s[5..10] == "false"
  {
    BooleanArgCharsPart1(s);
    BooleanArgCharsPart2(s);
    JsonAt(s, 0, 4);
    FalseAt(s, 5, 10);
  }

  lemma {:induction false} BooleanArgCharsPart1(s: string)
    requires Is(s, BooleanArgInput)
    ensures |s| == 11 && s[0] == 'j' && s[1] == 's' && s[2] == 'o' && s[3] == 'n' && s[4] == '(' && s[5] == 'f'
  {
  }

  lemma {:induction false} BooleanArgCharsPart2(s: string)
    requires Is(s, BooleanArgInput)
    ensures |s| == 11 && s[6] == 'a' && s[7] == 'l' && s[8] == 's' && s[9] == 'e' && s[10] == ')'
  {
  }

  lemma {:induction false} BooleanArgScan(s: string)
    requires Is(s, BooleanArgInput)
    ensures SkipBlankAndComments(s, 0) == 0 && ScanIdent(s, 0) == 4 && PlainWord(s, 0)
  {
    BooleanArgChars(s);
    SkipNothing(s, 0);
    CallWord(s, 0);
  }

  lemma {:induction false} BooleanArgArgs(s: string)
    requires Is(s, BooleanArgInput)
    ensures ParseArgs(s, 4, false) == Ok([Literal(Bool(false))], 11)
  {
    BooleanArgChars(s);
    assert KeywordAt(s, 5, "false");
    NotKeyword(s, 5, "true");
    BooleanArg(s, 5, false, 10, false);
    SingleArg(s, 4, false, Literal(Bool(false)), 10);
  }

  lemma {:induction false} BooleanArgMessage(s: string)
    ensures ErrorAtPosition(Custom(0, "expected string argument, received bool"), s)
            == "line 1 char 1: " + "expected string argument, received bool"
  {
    var msg := "expected string argument, received bool";
    FirstLineError(s, Custom(0, msg), "line 1 char 1: ", msg);
  }

  /** A boolean where `json` takes a string is rejected at the call. */
  lemma {:induction false} BooleanArgument(s: string)
    requires Is(s, BooleanArgInput)
    ensures TryParse(s, false) == Rejected(Custom(0, "expected string argument, received bool"))
    ensures ErrorAtPosition(Custom(0, "expected string argument, received bool"), s)
            == "line 1 char 1: " + "expected string argument, received bool"
  {
    BooleanArgChars(s);
    BooleanArgScan(s);
    BooleanArgArgs(s);
    var msg := "expected string argument, received bool";
    StringParamText(Bool(false));
    assert "expected string argument, received " + "bool" == msg;
    CallRejected(s, 0, 4, false, "json", [Literal(Bool(false))], 11, msg);
    OperandFailsQuery(s, 0, false, Custom(0, msg));
    RejectedWith(s, false, 0, Custom(0, msg));
    BooleanArgMessage(s);
  }

  // ---------------------------------------------------------------------
  // `json("foo") + `: an operator with nothing after it.

  const BadOperatorsInput := "json(\"foo\") + "

  lemma {:induction false} BadOperatorsChars(s: string)
    requires Is(s, BadOperatorsInput)
    ensures |s| == 14 && s[0..4] == "json" && s[6..9] == "foo"
    ensures s[4] == '(' && s[5] == '"' && s[9] == '"' && s[10] == ')'
    ensures s[11] == ' ' && s[12] == '+' && s[13] == ' '
  {
    BadOperatorsCharsPart1(s);
    BadOperatorsCharsPart2(s);
    BadOperatorsCharsPart3(s);
    JsonAt(s, 0, 4);
    FooAt(s, 6, 9);
  }

  lemma {:induction false} BadOperatorsCharsPart1(s: string)
    requires Is(s, BadOperatorsInput)
    ensures |s| == 14 && s[0] == 'j' && s[1] == 's' && s[2] == 'o' && s[3] == 'n' && s[4] == '(' && s[5] == '"'
  {
  }

  lemma {:induction false} BadOperatorsCharsPart2(s: string)
    requires Is(s, BadOperatorsInput)
    ensures |s| == 14 && s[6] == 'f' && s[7] == 'o' && s[8] == 'o' && s[9] == '"' && s[10] == ')' && s[11] == ' '
  {
  }

  lemma {:induction false} BadOperatorsCharsPart3(s: string)
    requires Is(s, BadOperatorsInput)
    ensures |s| == 14 && s[12] == '+' && s[13] == ' '
  {
  }

  lemma {:induction false} BadOperatorsLine(s: string)
    requires Is(s, BadOperatorsInput)
    ensures OnFirstLine(s, 14)
  {
  }

  lemma {:induction false} BadOperatorsScan(s: string)
    requires Is(s, BadOperatorsInput)
    ensures SkipBlankAndComments(s, 0) == 0 && SkipSpaces(s, 11) == 12
    ensures OperatorAt(s, 12) == Some((Add, 1)) && SkipBlankAndComments(s, 13) == 14
  {
    BadOperatorsChars(s);
    SkipNothing(s, 0);
    SpacesRun(s, 11, 12);
    SpacesRun(s, 13, 14);
  }

  lemma {:induction false} BadOperatorsLeft(s: string)
    requires Is(s, BadOperatorsInput)
    ensures ParseOperand(s, 0, false) == Ok(JsonFoo, 11)
  {
    BadOperatorsChars(s);
    StringOperand(s, 0, "json", "foo", 11, false);
  }

  lemma {:induction false} BadOperatorsMessage(s: string)
    requires OnFirstLine(s, 14)
    ensures ErrorAtPosition(Expected(14, false, ["query"]), s) == "line 1 char 15: " + "expected query"
  {
    FirstLineError(s, Expected(14, false, ["query"]), "line 1 char 15: ", "expected query");
  }

  /** The missing operand is reported, not required, where the input ends. */
  lemma {:induction false} BadOperators(s: string)
    requires Is(s, BadOperatorsInput)
    ensures TryParse(s, false) == Rejected(Expected(14, false, ["query"]))
    ensures ErrorAtPosition(Expected(14, false, ["query"]), s) == "line 1 char 15: " + "expected query"
  {
    BadOperatorsChars(s);
    BadOperatorsScan(s);
    BadOperatorsLeft(s);
    var err := Expected(14, false, ["query"]);
    NoTermAt(s, 14, false);
    ChainBroken(s, 11, false, 12, Add, 13, 14, err);
    ChainFailsQuery(s, 0, false, JsonFoo, 11, err);
    RejectedWith(s, false, 0, err);
    BadOperatorsLine(s);
    BadOperatorsMessage(s);
  }

  // ---------------------------------------------------------------------
  // `(json("foo") `: a bracket that is never closed.

  lemma {:induction false} ClosingBracketText(at: nat)
    ensures Message(Expected(at, true, ["closing bracket"])) == "required: expected closing bracket"
  {
    OneItemMessage(at, true, "closing bracket");
    assert "required: expected " + "closing bracket" == "required: expected closing bracket";
  }

  const UnclosedBracketInput := "(json(\"foo\") "

  lemma {:induction false} UnclosedBracketChars(s: string)
    requires Is(s, UnclosedBracketInput)
    ensures |s| == 13 && s[0] == '(' && s[1..5] == "json" && s[7..10] == "foo"
    ensures s[5] == '(' && s[6] == '"' && s[10] == '"' && s[11] == ')' && s[12] == ' '
  {
    UnclosedBracketCharsPart1(s);
    UnclosedBracketCharsPart2(s);
    UnclosedBracketCharsPart3(s);
    JsonAt(s, 1, 5);
    FooAt(s, 7, 10);
  }

  lemma {:induction false} UnclosedBracketCharsPart1(s: string)
    requires Is(s, UnclosedBracketInput)
    ensures |s| == 13 && s[0] == '(' && s[1] == 'j' && s[2] == 's' && s[3] == 'o' && s[4] == 'n' && s[5] == '('
  {
  }

  lemma {:induction false} UnclosedBracketCharsPart2(s: string)
    requires Is(s, UnclosedBracketInput)
    ensures |s| == 13 && s[6] == '"' && s[7] == 'f' && s[8] == 'o' && s[9] == 'o' && s[10] == '"' && s[11] == ')'
  {
  }

  lemma {:induction false} UnclosedBracketCharsPart3(s: string)
    requires Is(s, UnclosedBracketInput)
    ensures |s| == 13 && s[12] == ' '
  {
  }

  lemma {:induction false} UnclosedBracketLine(s: string)
    requires Is(s, UnclosedBracketInput)
    ensures OnFirstLine(s, 13)
  {
  }

  lemma {:induction false} UnclosedBracketScan(s: string)
    requires Is(s, UnclosedBracketInput)
    ensures SkipBlankAndComments(s, 0) == 0 && SkipBlankAndComments(s, 1) == 1
    ensures SkipSpaces(s, 12) == 13 && SkipBlankAndComments(s, 12) == 13
  {
    UnclosedBracketChars(s);
    SkipNothing(s, 0);
    SkipNothing(s, 1);
    SpacesRun(s, 12, 13);
  }

  lemma {:induction false} UnclosedBracketInner(s: string)
    requires Is(s, UnclosedBracketInput)
    ensures ParseQuery(s, 1, false) == Ok(JsonFoo, 12)
  {
    UnclosedBracketChars(s);
    UnclosedBracketScan(s);
    StringOperand(s, 1, "json", "foo", 12, false);
    SingleOperand(s, 1, false, JsonFoo, 12);
  }

  lemma {:induction false} UnclosedBracketMessage(s: string)
    requires OnFirstLine(s, 13)
    ensures ErrorAtPosition(Expected(13, true, ["closing bracket"]), s)
            == "line 1 char 14: " + "required: expected closing bracket"
  {
    ClosingBracketText(13);
    FirstLineError(s, Expected(13, true, ["closing bracket"]), "line 1 char 14: ", "required: expected closing bracket");
  }

  /** The closing bracket is required after the trailing blank. */
  lemma {:induction false} UnclosedBracket(s: string)
    requires Is(s, UnclosedBracketInput)
    ensures TryParse(s, false) == Rejected(Expected(13, true, ["closing bracket"]))
    ensures ErrorAtPosition(Expected(13, true, ["closing bracket"]), s)
            == "line 1 char 14: " + "required: expected closing bracket"
  {
    UnclosedBracketChars(s);
    UnclosedBracketScan(s);
    UnclosedBracketInner(s);
    var err := Expected(13, true, ["closing bracket"]);
    BracketUnclosed(s, 0, false, 1, JsonFoo, 12, 13);
    OperandFailsQuery(s, 0, false, err);
    RejectedWith(s, false, 0, err);
    UnclosedBracketLine(s);
    UnclosedBracketMessage(s);
  }

  // ---------------------------------------------------------------------
  // `(json("foo") + `: inside a bracket, an operator with nothing after it.

  const BracketOperatorInput := "(json(\"foo\") + "

  lemma {:induction false} BracketOperatorChars(s: string)
    requires Is(s, BracketOperatorInput)
    ensures |s| == 15 && s[0] == '(' && s[1..5] == "json" && s[7..10] == "foo"
    ensures s[5] == '(' && s[6] == '"' && s[10] == '"' && s[11] == ')'
    ensures s[12] == ' ' && s[13] == '+' && s[14] == ' '
  {
    BracketOperatorCharsPart1(s);
    BracketOperatorCharsPart2(s);
    BracketOperatorCharsPart3(s);
    JsonAt(s, 1, 5);
    FooAt(s, 7, 10);
  }

  lemma {:induction false} BracketOperatorCharsPart1(s: string)
    requires Is(s, BracketOperatorInput)
    ensures |s| == 15 && s[0] == '(' && s[1] == 'j' && s[2] == 's' && s[3] == 'o' && s[4] == 'n' && s[5] == '('
  {
  }

  lemma {:induction false} BracketOperatorCharsPart2(s: string)
    requires Is(s, BracketOperatorInput)
    ensures |s| == 15 && s[6] == '"' && s[7] == 'f' && s[8] == 'o' && s[9] == 'o' && s[10] == '"' && s[11] == ')'
  {
  }

  lemma {:induction false} BracketOperatorCharsPart3(s: string)
    requires Is(s, BracketOperatorInput)
    ensures |s| == 15 && s[12] == ' ' && s[13] == '+' && s[14] == ' '
  {
  }

  lemma {:induction false} BracketOperatorLine(s: string)
    requires Is(s, BracketOperatorInput)
    ensures OnFirstLine(s, 15)
  {
  }

  lemma {:induction false} BracketOperatorScan(s: string)
    requires Is(s, BracketOperatorInput)
    ensures SkipBlankAndComments(s, 0) == 0 && SkipBlankAndComments(s, 1) == 1
    ensures SkipSpaces(s, 12) == 13 && OperatorAt(s, 13) == Some((Add, 1))
    ensures SkipBlankAndComments(s, 14) == 15
  {
    BracketOperatorChars(s);
    SkipNothing(s, 0);
    SkipNothing(s, 1);
    SpacesRun(s, 12, 13);
    SpacesRun(s, 14, 15);
  }

  lemma {:induction false} BracketOperatorLeft(s: string)
    requires Is(s, BracketOperatorInput)
    ensures ParseOperand(s, 1, false) == Ok(JsonFoo, 12)
  {
    BracketOperatorChars(s);
    StringOperand(s, 1, "json", "foo", 12, false);
  }

  lemma {:induction false} BracketOperatorInner(s: string)
    requires Is(s, BracketOperatorInput)
    ensures ParseQuery(s, 1, false) == Fail(Expected(15, false, ["query"]))
  {
    BracketOperatorChars(s);
    BracketOperatorScan(s);
    BracketOperatorLeft(s);
    var err := Expected(15, false, ["query"]);
    NoTermAt(s, 15, false);
    ChainBroken(s, 12, false, 13, Add, 14, 15, err);
    ChainFailsQuery(s, 1, false, JsonFoo, 12, err);
  }

  lemma {:induction false} BracketOperatorMessage(s: string)
    requires OnFirstLine(s, 15)
    ensures ErrorAtPosition(Expected(15, false, ["query"]), s) == "line 1 char 16: " + "expected query"
  {
    FirstLineError(s, Expected(15, false, ["query"]), "line 1 char 16: ", "expected query");
  }

  /** The failure inside the bracket is passed on as it is. */
  lemma {:induction false} BracketOperator(s: string)
    requires Is(s, BracketOperatorInput)
    ensures TryParse(s, false) == Rejected(Expected(15, false, ["query"]))
    ensures ErrorAtPosition(Expected(15, false, ["query"]), s) == "line 1 char 16: " + "expected query"
  {
    BracketOperatorChars(s);
    BracketOperatorScan(s);
    BracketOperatorInner(s);
    var err := Expected(15, false, ["query"]);
    BracketInnerFails(s, 0, false, 1, err);
    OperandFailsQuery(s, 0, false, err);
    RejectedWith(s, false, 0, err);
    BracketOperatorLine(s);
    BracketOperatorMessage(s);
  }

  // ---------------------------------------------------------------------
  // `(json("foo") + meta("bar") `: a whole sum, then no closing bracket.

  const UnclosedSumInput := "(json(\"foo\") + meta(\"bar\") "

  lemma {:induction false} UnclosedSumChars(s: string)
    requires Is(s, UnclosedSumInput)
    ensures |s| == 27 && s[0] == '(' && s[1..5] == "json" && s[7..10] == "foo"
    ensures s[5] == '(' && s[6] == '"' && s[10] == '"' && s[11] == ')'
    ensures s[12] == ' ' && s[13] == '+' && s[14] == ' '
  {
    UnclosedSumCharsPart1(s);
    UnclosedSumCharsPart2(s);
    UnclosedSumCharsPart3(s);
    JsonAt(s, 1, 5);
    FooAt(s, 7, 10);
  }

  lemma {:induction false} UnclosedSumCharsPart1(s: string)
    requires Is(s, UnclosedSumInput)
    ensures |s| == 27 && s[0] == '(' && s[1] == 'j' && s[2] == 's' && s[3] == 'o' && s[4] == 'n' && s[5] == '('
  {
  }

  lemma {:induction false} UnclosedSumCharsPart2(s: string)
    requires Is(s, UnclosedSumInput)
    ensures |s| == 27 && s[6] == '"' && s[7] == 'f' && s[8] == 'o' && s[9] == 'o' && s[10] == '"' && s[11] == ')'
  {
  }

  lemma {:induction false} UnclosedSumCharsPart3(s: string)
    requires Is(s, UnclosedSumInput)
    ensures |s| == 27 && s[12] == ' ' && s[13] == '+' && s[14] == ' '
  {
  }

  lemma {:induction false} UnclosedSumRight(s: string)
    requires Is(s, UnclosedSumInput)
    ensures |s| == 27 && s[15..19] == "meta" && s[21..24] == "bar"
    ensures s[19] == '(' && s[20] == '"' && s[24] == '"' && s[25] == ')' && s[26] == ' '
  {
    UnclosedSumRightPart1(s);
    UnclosedSumRightPart2(s);
    MetaAt(s, 15, 19);
    BarAt(s, 21, 24);
  }

  lemma {:induction false} UnclosedSumRightPart1(s: string)
    requires Is(s, UnclosedSumInput)
    ensures |s| == 27 && s[15] == 'm' && s[16] == 'e' && s[17] == 't' && s[18] == 'a' && s[19] == '(' && s[20] == '"'
  {
  }

  lemma {:induction false} UnclosedSumRightPart2(s: string)
    requires Is(s, UnclosedSumInput)
    ensures |s| == 27 && s[21] == 'b' && s[22] == 'a' && s[23] == 'r' && s[24] == '"' && s[25] == ')' && s[26] == ' '
  {
  }

  lemma {:induction false} UnclosedSumLine(s: string)
    requires Is(s, UnclosedSumInput)
    ensures OnFirstLine(s, 27)
  {
  }

  lemma {:induction false} UnclosedSumScan(s: string)
    requires Is(s, UnclosedSumInput)
    ensures SkipBlankAndComments(s, 0) == 0 && SkipBlankAndComments(s, 1) == 1
    ensures SkipSpaces(s, 12) == 13 && OperatorAt(s, 13) == Some((Add, 1))
    ensures SkipBlankAndComments(s, 14) == 15
    ensures SkipSpaces(s, 26) == 27 && SkipBlankAndComments(s, 26) == 27
  {
    UnclosedSumChars(s);
    UnclosedSumRight(s);
    SkipNothing(s, 0);
    SkipNothing(s, 1);
    SpacesRun(s, 12, 13);
    SpacesRun(s, 14, 15);
    SpacesRun(s, 26, 27);
  }

  lemma {:induction false} UnclosedSumLeft(s: string)
    requires Is(s, UnclosedSumInput)
    ensures ParseOperand(s, 1, false) == Ok(JsonFoo, 12)
  {
    UnclosedSumChars(s);
    StringOperand(s, 1, "json", "foo", 12, false);
  }

  lemma {:induction false} UnclosedSumOperand(s: string)
    requires Is(s, UnclosedSumInput)
    ensures ParseOperand(s, 15, false) == Ok(MetaBar, 26)
  {
    UnclosedSumRight(s);
    StringOperand(s, 15, "meta", "bar", 26, false);
  }

  lemma {:induction false} UnclosedSumInner(s: string)
    requires Is(s, UnclosedSumInput)
    ensures ParseQuery(s, 1, false) == Ok(BinOp(Add, JsonFoo, MetaBar), 26)
  {
    UnclosedSumScan(s);
    UnclosedSumLeft(s);
    UnclosedSumOperand(s);
    ChainOfOne(s, false, 12, 13, Add, 14, 15, MetaBar, 26);
    BinaryOperands(s, 1, false, JsonFoo, 12, Add, MetaBar, 26);
  }

  lemma {:induction false} UnclosedSumMessage(s: string)
    requires OnFirstLine(s, 27)
    ensures ErrorAtPosition(Expected(27, true, ["closing bracket"]), s)
            == "line 1 char 28: " + "required: expected closing bracket"
  {
    ClosingBracketText(27);
    FirstLineError(s, Expected(27, true, ["closing bracket"]), "line 1 char 28: ", "required: expected closing bracket");
  }

  /** The sum is read whole; the closing bracket is then required. */
  lemma {:induction false} UnclosedSum(s: string)
    requires Is(s, UnclosedSumInput)
    ensures TryParse(s, false) == Rejected(Expected(27, true, ["closing bracket"]))
    ensures ErrorAtPosition(Expected(27, true, ["closing bracket"]), s)
            == "line 1 char 28: " + "required: expected closing bracket"
  {
    UnclosedSumChars(s);
    UnclosedSumScan(s);
    UnclosedSumInner(s);
    var err := Expected(27, true, ["closing bracket"]);
    BracketUnclosed(s, 0, false, 1, BinOp(Add, JsonFoo, MetaBar), 26, 27);
    OperandFailsQuery(s, 0, false, err);
    RejectedWith(s, false, 0, err);
    UnclosedSumLine(s);
    UnclosedSumMessage(s);
  }
}
