/**
 * The rows of the error table that fail after `json("foo")`: in a method
 * call, in a scoped query, or in a match expression whose cases never open.
 */
module TailErrorsTable {
  import opened Wrappers
  import opened Values
  import opened Ast
  import opened Registry
  import opened Combinators
  import opened QueryParser
  import opened ParserSteps
  import opened ParserFailures
  import opened ParserTerms
  import opened TableText
  import opened ErrorsTable

  /** The arity message of a method that takes one argument, got none, and
      is reported at the method's name. */
  lemma {:induction false} NoArgumentsMessage(s: string)
    requires OnFirstLine(s, 12)
    ensures ErrorAtPosition(Custom(12, "expected 1 arguments, received: 0"), s)
            == "line 1 char 13: " + "expected 1 arguments, received: 0"
  {
    FirstLineError(s, Custom(12, "expected 1 arguments, received: 0"), "line 1 char 13: ", "expected 1 arguments, received: 0");
  }

  lemma {:induction false} QueryRequiredText(at: nat)
    ensures Message(Expected(at, true, ["query"])) == "required: expected query"
  {
    OneItemMessage(at, true, "query");
    assert "required: expected " + "query" == "required: expected query";
  }

  // ---------------------------------------------------------------------
  // `json("foo").not_a_thing()`, in both grammars: an unknown method.

  const UnknownMethodInput := "json(\"foo\").not_a_thing()"

  lemma {:induction false} UnknownMethodChars(s: string)
    requires Is(s, UnknownMethodInput)
    ensures |s| == 25 && s[0..4] == "json" && s[4] == '(' && s[5] == '"'
    ensures s[6..9] == "foo" && s[9] == '"' && s[10] == ')' && s[11] == '.' && s[12] == 'n'
  {
    UnknownMethodCharsPart1(s);
    UnknownMethodCharsPart2(s);
    UnknownMethodCharsPart3(s);
    JsonAt(s, 0, 4);
    FooAt(s, 6, 9);
  }

  lemma {:induction false} UnknownMethodCharsPart1(s: string)
    requires Is(s, UnknownMethodInput)
    ensures |s| == 25 && s[0] == 'j' && s[1] == 's' && s[2] == 'o' && s[3] == 'n' && s[4] == '(' && s[5] == '"'
  {
  }

  lemma {:induction false} UnknownMethodCharsPart2(s: string)
    requires Is(s, UnknownMethodInput)
    ensures |s| == 25 && s[6] == 'f' && s[7] == 'o' && s[8] == 'o' && s[9] == '"' && s[10] == ')' && s[11] == '.'
  {
  }

  lemma {:induction false} UnknownMethodCharsPart3(s: string)
    requires Is(s, UnknownMethodInput)
    ensures |s| == 25 && s[12] == 'n'
  {
  }

  lemma {:induction false} UnknownMethodName(s: string)
    requires Is(s, UnknownMethodInput)
    ensures |s| == 25 && s[12..23] == "not_a_thing" && s[23] == '(' && s[24] == ')'
  {
    UnknownMethodNamePart1(s);
    UnknownMethodNamePart2(s);
    UnknownMethodNamePart3(s);
    NotAThingAt(s, 12, 23);
  }

  lemma {:induction false} UnknownMethodNamePart1(s: string)
    requires Is(s, UnknownMethodInput)
    ensures |s| == 25 && s[12] == 'n' && s[13] == 'o' && s[14] == 't' && s[15] == '_' && s[16] == 'a' && s[17] == '_'
  {
  }

  lemma {:induction false} UnknownMethodNamePart2(s: string)
    requires Is(s, UnknownMethodInput)
    ensures |s| == 25 && s[18] == 't' && s[19] == 'h' && s[20] == 'i' && s[21] == 'n' && s[22] == 'g' && s[23] == '('
  {
  }

  lemma {:induction false} UnknownMethodNamePart3(s: string)
    requires Is(s, UnknownMethodInput)
    ensures |s| == 25 && s[24] == ')'
  {
  }

  lemma {:induction false} UnknownMethodLine(s: string)
    requires Is(s, UnknownMethodInput)
    ensures OnFirstLine(s, 12)
  {
  }

  lemma {:induction false} UnknownMethodScan(s: string)
    requires Is(s, UnknownMethodInput)
    ensures SkipBlankAndComments(s, 0) == 0 && ScanIdent(s, 12) == 23
  {
    UnknownMethodChars(s);
    SkipNothing(s, 0);
    IdentRun(s, 12, 23);
  }

  lemma {:induction false} UnknownMethodText()
    ensures CallError("method", "not_a_thing", MethodSignature("not_a_thing"), [])
            == Some("unrecognised method 'not_a_thing'")
  {
    assert "unrecognised " + "method" == "unrecognised method";
    assert "unrecognised method" + " '" == "unrecognised method '";
    assert "unrecognised method '" + "not_a_thing" == "unrecognised method 'not_a_thing";
    assert "unrecognised method 'not_a_thing" + "'" == "unrecognised method 'not_a_thing'";
  }

  lemma {:induction false} UnknownMethodTail(s: string, d: bool)
    requires Is(s, UnknownMethodInput)
    ensures Tails(s, 11, d, JsonFoo) == Fail(Custom(12, "unrecognised method 'not_a_thing'"))
  {
    UnknownMethodChars(s);
    UnknownMethodName(s);
    UnknownMethodScan(s);
    NoArgs(s, 23, d);
    CallsChecked();
    UnknownMethodText();
    MethodRejected(s, 11, d, JsonFoo, "not_a_thing", 23, [], 25, "unrecognised method 'not_a_thing'");
  }

  lemma {:induction false} UnknownMethodMessage(s: string)
    requires OnFirstLine(s, 12)
    ensures ErrorAtPosition(Custom(12, "unrecognised method 'not_a_thing'"), s)
            == "line 1 char 13: " + "unrecognised method 'not_a_thing'"
  {
    var msg := "unrecognised method 'not_a_thing'";
    FirstLineError(s, Custom(12, msg), "line 1 char 13: ", msg);
  }

  /** The unknown method is reported at its name, in either grammar. */
  lemma {:induction false} UnknownMethod(s: string, d: bool)
    requires Is(s, UnknownMethodInput)
    ensures TryParse(s, d) == Rejected(Custom(12, "unrecognised method 'not_a_thing'"))
    ensures ErrorAtPosition(Custom(12, "unrecognised method 'not_a_thing'"), s)
            == "line 1 char 13: " + "unrecognised method 'not_a_thing'"
  {
    var err := Custom(12, "unrecognised method 'not_a_thing'");
    UnknownMethodChars(s);
    UnknownMethodScan(s);
    JsonFooFirst(s, d);
    UnknownMethodTail(s, d);
    TailsFail(s, 0, d, JsonFoo, 11, err);
    OperandFailsQuery(s, 0, d, err);
    RejectedWith(s, d, 0, err);
    UnknownMethodLine(s);
    UnknownMethodMessage(s);
  }

  // ---------------------------------------------------------------------
  // `json("foo").from(`: the argument list of a method never starts.

  const OpenMethodArgsInput := "json(\"foo\").from("

  lemma {:induction false} OpenMethodArgsChars(s: string)
    requires Is(s, OpenMethodArgsInput)
    ensures |s| == 17 && s[0..4] == "json" && s[4] == '(' && s[5] == '"'
    ensures s[6..9] == "foo" && s[9] == '"' && s[10] == ')' && s[11] == '.' && s[12] == 'f'
    ensures s[16] == '('
  {
    OpenMethodArgsCharsPart1(s);
    OpenMethodArgsCharsPart2(s);
    OpenMethodArgsCharsPart3(s);
    JsonAt(s, 0, 4);
    FooAt(s, 6, 9);
  }

  lemma {:induction false} OpenMethodArgsCharsPart1(s: string)
    requires Is(s, OpenMethodArgsInput)
    ensures |s| == 17 && s[0] == 'j' && s[1] == 's' && s[2] == 'o' && s[3] == 'n' && s[4] == '(' && s[5] == '"'
  {
  }

  lemma {:induction false} OpenMethodArgsCharsPart2(s: string)
    requires Is(s, OpenMethodArgsInput)
    ensures |s| == 17 && s[6] == 'f' && s[7] == 'o' && s[8] == 'o' && s[9] == '"' && s[10] == ')' && s[11] == '.'
  {
  }

  lemma {:induction false} OpenMethodArgsCharsPart3(s: string)
    requires Is(s, OpenMethodArgsInput)
    ensures |s| == 17 && s[12] == 'f' && s[16] == '('
  {
  }

  lemma {:induction false} OpenMethodArgsLine(s: string)
    requires Is(s, OpenMethodArgsInput)
    ensures OnFirstLine(s, 17)
  {
  }

  lemma {:induction false} OpenMethodArgsScan(s: string)
    requires Is(s, OpenMethodArgsInput)
    ensures SkipBlankAndComments(s, 0) == 0 && ScanIdent(s, 12) == 16
    ensures SkipBlankAndComments(s, 17) == 17
  {
    OpenMethodArgsChars(s);
    SkipNothing(s, 0);
    IdentRun(s, 12, 16);
    SpacesRun(s, 17, 17);
  }

  lemma {:induction false} OpenMethodArgsTail(s: string)
    requires Is(s, OpenMethodArgsInput)
    ensures Tails(s, 11, false, JsonFoo) == Fail(Expected(17, true, ArgumentKinds))
  {
    OpenMethodArgsChars(s);
    OpenMethodArgsScan(s);
    var e0 := Expected(17, false, ArgumentKinds);
    ArgMissing(s, 17, false);
    ArgsFirstFails(s, 16, false, 17, e0);
    CallsChecked();
    MethodArgsFail(s, 11, false, JsonFoo, 16, Required(e0));
  }

  lemma {:induction false} OpenMethodArgsMessage(s: string)
    requires OnFirstLine(s, 17)
    ensures ErrorAtPosition(Expected(17, true, ArgumentKinds), s) == "line 1 char 18: " + ArgumentMissingText
  {
    ArgumentMissingMessage(17);
    FirstLineError(s, Expected(17, true, ArgumentKinds), "line 1 char 18: ", ArgumentMissingText);
  }

  /** The method's argument is required one past its opening bracket. */
  lemma {:induction false} OpenMethodArgs(s: string)
    requires Is(s, OpenMethodArgsInput)
    ensures TryParse(s, false) == Rejected(Expected(17, true, ArgumentKinds))
    ensures ErrorAtPosition(Expected(17, true, ArgumentKinds), s) == "line 1 char 18: " + ArgumentMissingText
  {
    var err := Expected(17, true, ArgumentKinds);
    OpenMethodArgsChars(s);
    OpenMethodArgsScan(s);
    JsonFooFirst(s, false);
    OpenMethodArgsTail(s);
    TailsFail(s, 0, false, JsonFoo, 11, err);
    OperandFailsQuery(s, 0, false, err);
    RejectedWith(s, false, 0, err);
    OpenMethodArgsLine(s);
    OpenMethodArgsMessage(s);
  }

  // ---------------------------------------------------------------------
  // `json("foo").from()`: the method takes exactly one argument.

  const FromNothingInput := "json(\"foo\").from()"

  lemma {:induction false} FromNothingChars(s: string)
    requires Is(s, FromNothingInput)
    ensures |s| == 18 && s[0..4] == "json" && s[4] == '(' && s[5] == '"'
    ensures s[6..9] == "foo" && s[9] == '"' && s[10] == ')' && s[11] == '.'
    ensures s[12..16] == "from" && s[16] == '(' && s[17] == ')'
  {
    FromNothingCharsPart1(s);
    FromNothingCharsPart2(s);
    FromNothingCharsPart3(s);
    JsonAt(s, 0, 4);
    FooAt(s, 6, 9);
    FromAt(s, 12, 16);
  }

  lemma {:induction false} FromNothingCharsPart1(s: string)
    requires Is(s, FromNothingInput)
    ensures |s| == 18 && s[0] == 'j' && s[1] == 's' && s[2] == 'o' && s[3] == 'n' && s[4] == '(' && s[5] == '"'
  {
  }

  lemma {:induction false} FromNothingCharsPart2(s: string)
    requires Is(s, FromNothingInput)
    ensures |s| == 18 && s[6] == 'f' && s[7] == 'o' && s[8] == 'o' && s[9] == '"' && s[10] == ')' && s[11] == '.'
  {
  }

  lemma {:induction false} FromNothingCharsPart3(s: string)
    requires Is(s, FromNothingInput)
    ensures |s| == 18 && s[12] == 'f' && s[13] == 'r' && s[14] == 'o' && s[15] == 'm' && s[16] == '(' && s[17] == ')'
  {
  }

  lemma {:induction false} FromNothingLine(s: string)
    requires Is(s, FromNothingInput)
    ensures OnFirstLine(s, 12)
  {
  }

  lemma {:induction false} FromNothingScan(s: string)
    requires Is(s, FromNothingInput)
    ensures SkipBlankAndComments(s, 0) == 0 && ScanIdent(s, 12) == 16
  {
    FromNothingChars(s);
    SkipNothing(s, 0);
    IdentRun(s, 12, 16);
  }

  lemma {:induction false} FromNothingTail(s: string)
    requires Is(s, FromNothingInput)
    ensures Tails(s, 11, false, JsonFoo) == Fail(Custom(12, "expected 1 arguments, received: 0"))
  {
    FromNothingChars(s);
    FromNothingScan(s);
    NoArgs(s, 16, false);
    CallsChecked();
    ExactlyOneText([IntParam]);
    MethodRejected(s, 11, false, JsonFoo, "from", 16, [], 18, "expected 1 arguments, received: 0");
  }

  /** The arity failure is reported at the method's name. */
  lemma {:induction false} FromNothing(s: string)
    requires Is(s, FromNothingInput)
    ensures TryParse(s, false) == Rejected(Custom(12, "expected 1 arguments, received: 0"))
    ensures ErrorAtPosition(Custom(12, "expected 1 arguments, received: 0"), s)
            == "line 1 char 13: " + "expected 1 arguments, received: 0"
  {
    var err := Custom(12, "expected 1 arguments, received: 0");
    FromNothingChars(s);
    FromNothingScan(s);
    JsonFooFirst(s, false);
    FromNothingTail(s);
    TailsFail(s, 0, false, JsonFoo, 11, err);
    OperandFailsQuery(s, 0, false, err);
    RejectedWith(s, false, 0, err);
    FromNothingLine(s);
    NoArgumentsMessage(s);
  }

  // ---------------------------------------------------------------------
  // `json("foo").from("nah")`: the index must be an integer.

  const FromStringInput := "json(\"foo\").from(\"nah\")"

  lemma {:induction false} FromStringChars(s: string)
    requires Is(s, FromStringInput)
    ensures |s| == 23 && s[0..4] == "json" && s[4] == '(' && s[5] == '"'
    ensures s[6..9] == "foo" && s[9] == '"' && s[10] == ')' && s[11] == '.'
  {
    FromStringCharsPart1(s);
    FromStringCharsPart2(s);
    JsonAt(s, 0, 4);
    FooAt(s, 6, 9);
  }

  lemma {:induction false} FromStringCharsPart1(s: string)
    requires Is(s, FromStringInput)
    ensures |s| == 23 && s[0] == 'j' && s[1] == 's' && s[2] == 'o' && s[3] == 'n' && s[4] == '(' && s[5] == '"'
  {
  }

  lemma {:induction false} FromStringCharsPart2(s: string)
    requires Is(s, FromStringInput)
    ensures |s| == 23 && s[6] == 'f' && s[7] == 'o' && s[8] == 'o' && s[9] == '"' && s[10] == ')' && s[11] == '.'
  {
  }

  lemma {:induction false} FromStringArgs(s: string)
    requires Is(s, FromStringInput)
    ensures |s| == 23 && s[12..16] == "from" && s[16] == '(' && s[17] == '"'
    ensures s[18..21] == "nah" && s[21] == '"' && s[22] == ')'
    ensures forall k | 17 < k < 21 :: s[k] != '"' && s[k] != '\\'
  {
    FromStringArgsPart1(s);
    FromStringArgsPart2(s);
    FromAt(s, 12, 16);
    NahAt(s, 18, 21);
  }

  lemma {:induction false} FromStringArgsPart1(s: string)
    requires Is(s, FromStringInput)
    ensures |s| == 23 && s[12] == 'f' && s[13] == 'r' && s[14] == 'o' && s[15] == 'm' && s[16] == '(' && s[17] == '"'
  {
  }

  lemma {:induction false} FromStringArgsPart2(s: string)
    requires Is(s, FromStringInput)
    ensures |s| == 23 && s[18] == 'n' && s[19] == 'a' && s[20] == 'h' && s[21] == '"' && s[22] == ')'
  {
  }

  lemma {:induction false} FromStringLine(s: string)
    requires Is(s, FromStringInput)
    ensures OnFirstLine(s, 12)
  {
  }

  lemma {:induction false} FromStringScan(s: string)
    requires Is(s, FromStringInput)
    ensures SkipBlankAndComments(s, 0) == 0 && ScanIdent(s, 12) == 16
  {
    FromStringChars(s);
    FromStringArgs(s);
    SkipNothing(s, 0);
    IdentRun(s, 12, 16);
  }

  lemma {:induction false} FromStringText()
    ensures CallError("method", "from", MethodSignature("from"), [Literal(Str("nah"))])
            == Some("expected int argument, received string")
  {
    assert ParamError(IntParam, Str("nah")) == Some("expected int argument, received " + "string");
    assert LiteralArgError([IntParam], [Literal(Str("nah"))], 0) == ParamError(IntParam, Str("nah"));
    assert ArityError(Signature(1, 1, [IntParam]), 1).None?;
    assert "expected int argument, received " + "string" == "expected int argument, received string";
  }

  lemma {:induction false} FromStringArgList(s: string)
    requires Is(s, FromStringInput)
    ensures ParseArgs(s, 16, false) == Ok([Literal(Str("nah"))], 23)
  {
    FromStringArgs(s);
    StringArgs(s, 16, 21, false);
  }

  lemma {:induction false} FromStringTail(s: string)
    requires Is(s, FromStringInput)
    ensures Tails(s, 11, false, JsonFoo) == Fail(Custom(12, "expected int argument, received string"))
  {
    FromStringArgs(s);
    FromStringScan(s);
    FromStringArgList(s);
    CallsChecked();
    FromStringText();
    MethodRejected(s, 11, false, JsonFoo, "from", 16, [Literal(Str("nah"))], 23, "expected int argument, received string");
  }

  lemma {:induction false} FromStringMessage(s: string)
    requires OnFirstLine(s, 12)
    ensures ErrorAtPosition(Custom(12, "expected int argument, received string"), s)
            == "line 1 char 13: " + "expected int argument, received string"
  {
    var msg := "expected int argument, received string";
    FirstLineError(s, Custom(12, msg), "line 1 char 13: ", msg);
  }

  /** A literal argument of the wrong kind is refused while parsing. */
  lemma {:induction false} FromString(s: string)
    requires Is(s, FromStringInput)
    ensures TryParse(s, false) == Rejected(Custom(12, "expected int argument, received string"))
    ensures ErrorAtPosition(Custom(12, "expected int argument, received string"), s)
            == "line 1 char 13: " + "expected int argument, received string"
  {
    var err := Custom(12, "expected int argument, received string");
    FromStringChars(s);
    FromStringScan(s);
    JsonFooFirst(s, false);
    FromStringTail(s);
    TailsFail(s, 0, false, JsonFoo, 11, err);
    OperandFailsQuery(s, 0, false, err);
    RejectedWith(s, false, 0, err);
    FromStringLine(s);
    FromStringMessage(s);
  }

  // ---------------------------------------------------------------------
  // `json("foo").map()`: the mapping query is missing.

  const MapNothingInput := "json(\"foo\").map()"

  lemma {:induction false} MapNothingChars(s: string)
    requires Is(s, MapNothingInput)
    ensures |s| == 17 && s[0..4] == "json" && s[4] == '(' && s[5] == '"'
    ensures s[6..9] == "foo" && s[9] == '"' && s[10] == ')' && s[11] == '.'
    ensures s[12..15] == "map" && s[15] == '(' && s[16] == ')'
  {
    MapNothingCharsPart1(s);
    MapNothingCharsPart2(s);
    MapNothingCharsPart3(s);
    JsonAt(s, 0, 4);
    FooAt(s, 6, 9);
    MapAt(s, 12, 15);
  }

  lemma {:induction false} MapNothingCharsPart1(s: string)
    requires Is(s, MapNothingInput)
    ensures |s| == 17 && s[0] == 'j' && s[1] == 's' && s[2] == 'o' && s[3] == 'n' && s[4] == '(' && s[5] == '"'
  {
  }

  lemma {:induction false} MapNothingCharsPart2(s: string)
    requires Is(s, MapNothingInput)
    ensures |s| == 17 && s[6] == 'f' && s[7] == 'o' && s[8] == 'o' && s[9] == '"' && s[10] == ')' && s[11] == '.'
  {
  }

  lemma {:induction false} MapNothingCharsPart3(s: string)
    requires Is(s, MapNothingInput)
    ensures |s| == 17 && s[12] == 'm' && s[13] == 'a' && s[14] == 'p' && s[15] == '(' && s[16] == ')'
  {
  }

  lemma {:induction false} MapNothingLine(s: string)
    requires Is(s, MapNothingInput)
    ensures OnFirstLine(s, 12)
  {
  }

  lemma {:induction false} MapNothingScan(s: string)
    requires Is(s, MapNothingInput)
    ensures SkipBlankAndComments(s, 0) == 0 && ScanIdent(s, 12) == 15
  {
    MapNothingChars(s);
    SkipNothing(s, 0);
    IdentRun(s, 12, 15);
  }

  lemma {:induction false} MapNothingTail(s: string)
    requires Is(s, MapNothingInput)
    ensures Tails(s, 11, false, JsonFoo) == Fail(Custom(12, "expected 1 arguments, received: 0"))
  {
    MapNothingChars(s);
    MapNothingScan(s);
    NoArgs(s, 15, false);
    CallsChecked();
    ExactlyOneText([QueryParam]);
    MethodRejected(s, 11, false, JsonFoo, "map", 15, [], 17, "expected 1 arguments, received: 0");
  }

  /** `map` needs its query. */
  lemma {:induction false} MapNothing(s: string)
    requires Is(s, MapNothingInput)
    ensures TryParse(s, false) == Rejected(Custom(12, "expected 1 arguments, received: 0"))
    ensures ErrorAtPosition(Custom(12, "expected 1 arguments, received: 0"), s)
            == "line 1 char 13: " + "expected 1 arguments, received: 0"
  {
    var err := Custom(12, "expected 1 arguments, received: 0");
    MapNothingChars(s);
    MapNothingScan(s);
    JsonFooFirst(s, false);
    MapNothingTail(s);
    TailsFail(s, 0, false, JsonFoo, 11, err);
    OperandFailsQuery(s, 0, false, err);
    RejectedWith(s, false, 0, err);
    MapNothingLine(s);
    NoArgumentsMessage(s);
  }

  // ---------------------------------------------------------------------
  // `json("foo").(=)`: a scoped query that is not a query.

  const ScopedGibberishInput := "json(\"foo\").(=)"

  lemma {:induction false} ScopedGibberishChars(s: string)
    requires Is(s, ScopedGibberishInput)
    ensures |s| == 15 && s[0..4] == "json" && s[4] == '(' && s[5] == '"'
    ensures s[6..9] == "foo" && s[9] == '"' && s[10] == ')' && s[11] == '.'
    ensures s[12] == '(' && s[13] == '=' && s[14] == ')'
  {
    ScopedGibberishCharsPart1(s);
    ScopedGibberishCharsPart2(s);
    ScopedGibberishCharsPart3(s);
    JsonAt(s, 0, 4);
    FooAt(s, 6, 9);
  }

  lemma {:induction false} ScopedGibberishCharsPart1(s: string)
    requires Is(s, ScopedGibberishInput)
    ensures |s| == 15 && s[0] == 'j' && s[1] == 's' && s[2] == 'o' && s[3] == 'n' && s[4] == '(' && s[5] == '"'
  {
  }

  lemma {:induction false} ScopedGibberishCharsPart2(s: string)
    requires Is(s, ScopedGibberishInput)
    ensures |s| == 15 && s[6] == 'f' && s[7] == 'o' && s[8] == 'o' && s[9] == '"' && s[10] == ')' && s[11] == '.'
  {
  }

  lemma {:induction false} ScopedGibberishCharsPart3(s: string)
    requires Is(s, ScopedGibberishInput)
    ensures |s| == 15 && s[12] == '(' && s[13] == '=' && s[14] == ')'
  {
  }

  lemma {:induction false} ScopedGibberishLine(s: string)
    requires Is(s, ScopedGibberishInput)
    ensures OnFirstLine(s, 13)
  {
  }

  lemma {:induction false} ScopedGibberishTail(s: string)
    requires Is(s, ScopedGibberishInput)
    ensures Tails(s, 11, false, JsonFoo) == Fail(Expected(13, true, ["query"]))
  {
    ScopedGibberishChars(s);
    var e := Expected(13, false, ["query"]);
    SkipNothing(s, 13);
    NoTermAt(s, 13, false);
    OperandFailsQuery(s, 13, false, e);
    CallsChecked();
    ScopedFails(s, 11, false, JsonFoo, 13, e);
  }

  lemma {:induction false} ScopedGibberishMessage(s: string)
    requires OnFirstLine(s, 13)
    ensures ErrorAtPosition(Expected(13, true, ["query"]), s) == "line 1 char 14: " + "required: expected query"
  {
    QueryRequiredText(13);
    FirstLineError(s, Expected(13, true, ["query"]), "line 1 char 14: ", "required: expected query");
  }

  /** Inside `.( )` a query is required. */
  lemma {:induction false} ScopedGibberish(s: string)
    requires Is(s, ScopedGibberishInput)
    ensures TryParse(s, false) == Rejected(Expected(13, true, ["query"]))
    ensures ErrorAtPosition(Expected(13, true, ["query"]), s) == "line 1 char 14: " + "required: expected query"
  {
    var err := Expected(13, true, ["query"]);
    ScopedGibberishChars(s);
    SkipNothing(s, 0);
    JsonFooFirst(s, false);
    ScopedGibberishTail(s);
    TailsFail(s, 0, false, JsonFoo, 11, err);
    OperandFailsQuery(s, 0, false, err);
    RejectedWith(s, false, 0, err);
    ScopedGibberishLine(s);
    ScopedGibberishMessage(s);
  }

  // ---------------------------------------------------------------------
  // `json("foo").(1 + )`: inside the scoped query an operand is missing.

  const ScopedSumInput := "json(\"foo\").(1 + )"

  lemma {:induction false} ScopedSumChars(s: string)
    requires Is(s, ScopedSumInput)
    ensures |s| == 18 && s[0..4] == "json" && s[4] == '(' && s[5] == '"'
    ensures s[6..9] == "foo" && s[9] == '"' && s[10] == ')' && s[11] == '.'
  {
    ScopedSumCharsPart1(s);
    ScopedSumCharsPart2(s);
    JsonAt(s, 0, 4);
    FooAt(s, 6, 9);
  }

  lemma {:induction false} ScopedSumCharsPart1(s: string)
    requires Is(s, ScopedSumInput)
    ensures |s| == 18 && s[0] == 'j' && s[1] == 's' && s[2] == 'o' && s[3] == 'n' && s[4] == '(' && s[5] == '"'
  {
  }

  lemma {:induction false} ScopedSumCharsPart2(s: string)
    requires Is(s, ScopedSumInput)
    ensures |s| == 18 && s[6] == 'f' && s[7] == 'o' && s[8] == 'o' && s[9] == '"' && s[10] == ')' && s[11] == '.'
  {
  }

  lemma {:induction false} ScopedSumInside(s: string)
    requires Is(s, ScopedSumInput)
    ensures |s| == 18 && s[12] == '(' && s[13] == '1' && s[14] == ' '
    ensures s[15] == '+' && s[16] == ' ' && s[17] == ')'
  {
    ScopedSumInsidePart1(s);
  }

  lemma {:induction false} ScopedSumInsidePart1(s: string)
    requires Is(s, ScopedSumInput)
    ensures |s| == 18 && s[12] == '(' && s[13] == '1' && s[14] == ' ' && s[15] == '+' && s[16] == ' ' && s[17] == ')'
  {
  }

  lemma {:induction false} ScopedSumLine(s: string)
    requires Is(s, ScopedSumInput)
    ensures OnFirstLine(s, 17)
  {
  }

  lemma {:induction false} ScopedSumScan(s: string)
    requires Is(s, ScopedSumInput)
    ensures SkipBlankAndComments(s, 13) == 13 && SkipSpaces(s, 14) == 15
    ensures OperatorAt(s, 15) == Some((Add, 1)) && SkipBlankAndComments(s, 16) == 17
  {
    ScopedSumInside(s);
    SkipNothing(s, 13);
    SpacesRun(s, 14, 15);
    SpacesRun(s, 16, 17);
  }

  lemma {:induction false} ScopedSumLeft(s: string)
    requires Is(s, ScopedSumInput)
    ensures ParseOperand(s, 13, false) == Ok(Literal(Int64(1)), 14)
  {
    ScopedSumInside(s);
    SingleDigit(s, 13);
    NumberTerm(s, 13, 1, 14, false);
    NoTails(s, 13, false, Literal(Int64(1)), 14);
  }

  lemma {:induction false} ScopedSumInner(s: string)
    requires Is(s, ScopedSumInput)
    ensures ParseQuery(s, 13, false) == Fail(Expected(17, false, ["query"]))
  {
    ScopedSumInside(s);
    ScopedSumScan(s);
    ScopedSumLeft(s);
    var e := Expected(17, false, ["query"]);
    NoTermAt(s, 17, false);
    ChainBroken(s, 14, false, 15, Add, 16, 17, e);
    ChainFailsQuery(s, 13, false, Literal(Int64(1)), 14, e);
  }

  lemma {:induction false} ScopedSumTail(s: string)
    requires Is(s, ScopedSumInput)
    ensures Tails(s, 11, false, JsonFoo) == Fail(Expected(17, true, ["query"]))
  {
    ScopedSumChars(s);
    ScopedSumInside(s);
    ScopedSumScan(s);
    ScopedSumInner(s);
    CallsChecked();
    ScopedFails(s, 11, false, JsonFoo, 13, Expected(17, false, ["query"]));
  }

  lemma {:induction false} ScopedSumMessage(s: string)
    requires OnFirstLine(s, 17)
    ensures ErrorAtPosition(Expected(17, true, ["query"]), s) == "line 1 char 18: " + "required: expected query"
  {
    QueryRequiredText(17);
    FirstLineError(s, Expected(17, true, ["query"]), "line 1 char 18: ", "required: expected query");
  }

  /** A failure inside `.( )` becomes required. */
  lemma {:induction false} ScopedSum(s: string)
    requires Is(s, ScopedSumInput)
    ensures TryParse(s, false) == Rejected(Expected(17, true, ["query"]))
    ensures ErrorAtPosition(Expected(17, true, ["query"]), s) == "line 1 char 18: " + "required: expected query"
  {
    var err := Expected(17, true, ["query"]);
    ScopedSumChars(s);
    SkipNothing(s, 0);
    JsonFooFirst(s, false);
    ScopedSumTail(s);
    TailsFail(s, 0, false, JsonFoo, 11, err);
    OperandFailsQuery(s, 0, false, err);
    RejectedWith(s, false, 0, err);
    ScopedSumLine(s);
    ScopedSumMessage(s);
  }

  // ---------------------------------------------------------------------
  // `match json("foo")` and `match json("foo") what is this?`: the cases
  // never open.

  const MatchAtEndInput := "match json(\"foo\")"

  const MatchThenWordsInput := "match json(\"foo\") what is this?"

  lemma {:induction false} OpenBraceText(at: nat)
    ensures Message(Expected(at, true, ["{"])) == "required: expected {"
  {
    OneItemMessage(at, true, "{");
    assert "required: expected " + "{" == "required: expected {";
  }

  lemma {:induction false} MatchAtEndChars(s: string)
    requires Is(s, MatchAtEndInput)
    ensures |s| == 17 && s[0..5] == "match" && s[5] == ' ' && s[6..10] == "json"
    ensures s[10] == '(' && s[11] == '"' && s[12..15] == "foo" && s[15] == '"' && s[16] == ')'
  {
    MatchAtEndCharsPart1(s);
    MatchAtEndCharsPart2(s);
    MatchAtEndCharsPart3(s);
    MatchAt(s, 0, 5);
    JsonAt(s, 6, 10);
    FooAt(s, 12, 15);
  }

  lemma {:induction false} MatchAtEndCharsPart1(s: string)
    requires Is(s, MatchAtEndInput)
    ensures |s| == 17 && s[0] == 'm' && s[1] == 'a' && s[2] == 't' && s[3] == 'c' && s[4] == 'h' && s[5] == ' '
  {
  }

  lemma {:induction false} MatchAtEndCharsPart2(s: string)
    requires Is(s, MatchAtEndInput)
    ensures |s| == 17 && s[6] == 'j' && s[7] == 's' && s[8] == 'o' && s[9] == 'n' && s[10] == '(' && s[11] == '"'
  {
  }

  lemma {:induction false} MatchAtEndCharsPart3(s: string)
    requires Is(s, MatchAtEndInput)
    ensures |s| == 17 && s[12] == 'f' && s[13] == 'o' && s[14] == 'o' && s[15] == '"' && s[16] == ')'
  {
  }

  lemma {:induction false} MatchAtEndLine(s: string)
    requires Is(s, MatchAtEndInput)
    ensures OnFirstLine(s, 17)
  {
  }

  lemma {:induction false} MatchThenWordsChars(s: string)
    requires Is(s, MatchThenWordsInput)
    ensures |s| == 31 && s[0..5] == "match" && s[5] == ' ' && s[6..10] == "json"
  {
    MatchThenWordsCharsPart1(s);
    MatchThenWordsCharsPart2(s);
    MatchAt(s, 0, 5);
    JsonAt(s, 6, 10);
  }

  lemma {:induction false} MatchThenWordsCharsPart1(s: string)
    requires Is(s, MatchThenWordsInput)
    ensures |s| == 31 && s[0] == 'm' && s[1] == 'a' && s[2] == 't' && s[3] == 'c' && s[4] == 'h' && s[5] == ' '
  {
  }

  lemma {:induction false} MatchThenWordsCharsPart2(s: string)
    requires Is(s, MatchThenWordsInput)
    ensures |s| == 31 && s[6] == 'j' && s[7] == 's' && s[8] == 'o' && s[9] == 'n'
  {
  }

  lemma {:induction false} MatchThenWordsCall(s: string)
    requires Is(s, MatchThenWordsInput)
    ensures |s| == 31 && s[10] == '(' && s[11] == '"' && s[12..15] == "foo" && s[15] == '"' && s[16] == ')'
    ensures s[17] == ' ' && s[18] == 'w' && s[19] == 'h'
  {
    MatchThenWordsCallPart1(s);
    MatchThenWordsCallPart2(s);
    FooAt(s, 12, 15);
  }

  lemma {:induction false} MatchThenWordsCallPart1(s: string)
    requires Is(s, MatchThenWordsInput)
    ensures |s| == 31 && s[10] == '(' && s[11] == '"' && s[12] == 'f' && s[13] == 'o' && s[14] == 'o' && s[15] == '"'
  {
  }

  lemma {:induction false} MatchThenWordsCallPart2(s: string)
    requires Is(s, MatchThenWordsInput)
    ensures |s| == 31 && s[16] == ')' && s[17] == ' ' && s[18] == 'w' && s[19] == 'h'
  {
  }

  lemma {:induction false} MatchThenWordsLine(s: string)
    requires Is(s, MatchThenWordsInput)
    ensures OnFirstLine(s, 18)
  {
  }

  lemma {:induction false} MatchThenWordsScan(s: string)
    requires 20 <= |s| && s[17] == ' ' && s[18] == 'w' && s[19] == 'h'
    ensures SkipSpaces(s, 17) == 18 && SkipBlankAndComments(s, 17) == 18
    ensures OperatorAt(s, 18).None?
  {
    SpacesRun(s, 17, 18);
  }

  lemma {:induction false} MatchSubject(s: string)
    requires 17 <= |s| && s[0..5] == "match" && s[5] == ' ' && s[6..10] == "json"
    requires s[10] == '(' && s[11] == '"' && s[12..15] == "foo" && s[15] == '"' && s[16] == ')'
    requires 17 == |s| || s[17] == ' '
    ensures MatchKeywordAt(s, 0) && SkipSpaces(s, 6) == 6
    ensures ParseOperand(s, 6, false) == Ok(JsonFoo, 17)
  {
    SkipNothing(s, 6);
    StringOperand(s, 6, "json", "foo", 17, false);
  }

  lemma {:induction false} MatchAtEndSubject(s: string)
    requires Is(s, MatchAtEndInput)
    ensures MatchKeywordAt(s, 0) && SkipSpaces(s, 6) == 6 && SkipBlankAndComments(s, 0) == 0
    ensures ParseQuery(s, 6, false) == Ok(JsonFoo, 17) && SkipBlankAndComments(s, 17) == 17
  {
    MatchAtEndChars(s);
    MatchSubject(s);
    SkipNothing(s, 0);
    SpacesRun(s, 17, 17);
    SingleOperand(s, 6, false, JsonFoo, 17);
  }

  lemma {:induction false} MatchAtEndMessage(s: string)
    requires OnFirstLine(s, 17)
    ensures ErrorAtPosition(Expected(17, true, ["{"]), s) == "line 1 char 18: " + "required: expected {"
  {
    OpenBraceText(17);
    FirstLineError(s, Expected(17, true, ["{"]), "line 1 char 18: ", "required: expected {");
  }

  /** The opening brace is required where the input ends. */
  lemma {:induction false} MatchAtEnd(s: string)
    requires Is(s, MatchAtEndInput)
    ensures TryParse(s, false) == Rejected(Expected(17, true, ["{"]))
    ensures ErrorAtPosition(Expected(17, true, ["{"]), s) == "line 1 char 18: " + "required: expected {"
  {
    var err := Expected(17, true, ["{"]);
    MatchAtEndSubject(s);
    MatchUnopened(s, 0, false, 6, JsonFoo, 17, 17);
    OperandFailsQuery(s, 0, false, err);
    RejectedWith(s, false, 0, err);
    MatchAtEndLine(s);
    MatchAtEndMessage(s);
  }

  lemma {:induction false} MatchThenWordsSubject(s: string)
    requires Is(s, MatchThenWordsInput)
    ensures MatchKeywordAt(s, 0) && SkipSpaces(s, 6) == 6 && SkipBlankAndComments(s, 0) == 0
    ensures ParseQuery(s, 6, false) == Ok(JsonFoo, 17) && SkipBlankAndComments(s, 17) == 18
    ensures s[18] == 'w'
  {
    MatchThenWordsChars(s);
    MatchThenWordsCall(s);
    MatchSubject(s);
    SkipNothing(s, 0);
    MatchThenWordsScan(s);
    SingleOperand(s, 6, false, JsonFoo, 17);
  }

  lemma {:induction false} MatchThenWordsMessage(s: string)
    requires OnFirstLine(s, 18)
    ensures ErrorAtPosition(Expected(18, true, ["{"]), s) == "line 1 char 19: " + "required: expected {"
  {
    OpenBraceText(18);
    FirstLineError(s, Expected(18, true, ["{"]), "line 1 char 19: ", "required: expected {");
  }

  /** The brace is required at the first word after the subject. */
  lemma {:induction false} MatchThenWords(s: string)
    requires Is(s, MatchThenWordsInput)
    ensures TryParse(s, false) == Rejected(Expected(18, true, ["{"]))
    ensures ErrorAtPosition(Expected(18, true, ["{"]), s) == "line 1 char 19: " + "required: expected {"
  {
    var err := Expected(18, true, ["{"]);
    MatchThenWordsSubject(s);
    MatchUnopened(s, 0, false, 6, JsonFoo, 17, 18);
    OperandFailsQuery(s, 0, false, err);
    RejectedWith(s, false, 0, err);
    MatchThenWordsLine(s);
    MatchThenWordsMessage(s);
  }
}
