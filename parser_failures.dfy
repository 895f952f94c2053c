/**
 * How the grammar fails: where no term can start, what an argument that is
 * missing reports, how a fatal failure inside an argument list, a postfix
 * chain, a bracket or a match block reaches the top of the query, and how a
 * failure on the first line is rendered. The error tables are proved by
 * chaining these.
 */
module ParserFailures {
  import opened Wrappers
  import opened Values
  import opened Ast
  import opened Registry
  import opened Combinators
  import opened Literals
  import opened QueryParser
  import opened ParserSteps

  /** The end of the input, or a character that starts no term: not an
      identifier character, bracket, quote or sign. */
  predicate NoTermStart(s: string, p: nat) {
    p <= |s| &&
    (p == |s| || (!IsIdentChar(s[p]) && s[p] != '(' && s[p] != '"' && s[p] != '[' && s[p] != '{' && s[p] != '-'))
  }

  /** A keyword cannot start at a character other than its first. */
  lemma {:induction false} NotKeyword(s: string, p: nat, w: string)
    requires p < |s| && |w| > 0 && s[p] != w[0]
    ensures !KeywordAt(s, p, w)
  {
    if p + |w| <= |s| {
      assert s[p..p + |w|][0] == s[p];
    }
  }

  /** Nor where any later character of the word differs. */
  lemma {:induction false} KeywordDiffersAt(s: string, p: nat, w: string, i: nat)
    requires i < |w| && p + i < |s| && s[p + i] != w[i]
    ensures !KeywordAt(s, p, w)
  {
    if p + |w| <= |s| {
      assert s[p..p + |w|][i] == s[p + i];
    }
  }

  lemma {:induction false} NotMatchKeyword(s: string, p: nat)
    requires p < |s| && s[p] != 'm'
    ensures !MatchKeywordAt(s, p)
  {
    if p + 6 <= |s| {
      assert s[p..p + 5][0] == s[p];
    }
  }

  /** Where no term can start every alternative of a term fails
      recoverably, and the operand is reported as a missing query. */
  lemma {:induction false} NoTermAt(s: string, p: nat, d: bool)
    requires NoTermStart(s, p)
    ensures SoftAt(ParseTerm(s, p, d), p)
    ensures ParseOperand(s, p, d) == Fail(Expected(p, false, ["query"]))
  {
    if p < |s| {
      NotKeyword(s, p, "true");
      NotKeyword(s, p, "false");
      NotKeyword(s, p, "null");
      NotMatchKeyword(s, p);
    }
    var scalar := ParseScalar(s, p);
    assert SoftAt(scalar, p) by {
      SoftBoth(ParseNumber(s, p), ParseQuotedString(s, p), p);
      SoftBoth(ParseNull(s, p), OneOf(ParseNumber(s, p), ParseQuotedString(s, p)), p);
      SoftBoth(ParseBoolean(s, p), OneOf(ParseNull(s, p), OneOf(ParseNumber(s, p), ParseQuotedString(s, p))), p);
    }
    var structure := OneOf(ParseArray(s, p, d), ParseObject(s, p, d));
    SoftBoth(ParseArray(s, p, d), ParseObject(s, p, d), p);
    SoftBoth(Lift(scalar), structure, p);
    var word := OneOf(ParseFunction(s, p, d), ParsePath(s, p));
    SoftBoth(ParseFunction(s, p, d), ParsePath(s, p), p);
    var w := if d then ParseFunction(s, p, d) else word;
    SoftBoth(ParseLiteral(s, p, d), w, p);
    SoftBoth(ParseBracket(s, p, d), OneOf(ParseLiteral(s, p, d), w), p);
    SoftBoth(ParseMatch(s, p, d), OneOf(ParseBracket(s, p, d), OneOf(ParseLiteral(s, p, d), w)), p);
  }

  /** Two alternatives failing recoverably at p fail recoverably at p. */
  lemma {:induction false} SoftBoth<T>(a: Res<T>, b: Res<T>, p: nat)
    requires SoftAt(a, p) && SoftAt(b, p)
    ensures SoftAt(OneOf(a, b), p)
  {
  }

  /** Where an argument should start and none can, every kind of argument
      is named, in the order they are tried. */
  lemma {:induction false} ArgMissing(s: string, q: nat, d: bool)
    requires NoTermStart(s, q)
    ensures ParseArg(s, q, d) == Fail(Expected(q, false, ["boolean", "number", "quoted string", "query"]))
  {
    if q < |s| {
      NotKeyword(s, q, "true");
      NotKeyword(s, q, "false");
    }
    NoTermAt(s, q, d);
    var query := ParseQuery(s, q, d);
    assert query == Fail(Expected(q, false, ["query"]));
    var quoted := OneOf(Lift(ParseQuotedString(s, q)), query);
    assert ["quoted string"] + ["query"] == ["quoted string", "query"];
    assert quoted == Fail(Expected(q, false, ["quoted string", "query"]));
    var number := OneOf(Lift(ParseNumber(s, q)), quoted);
    assert ["number"] + ["quoted string", "query"] == ["number", "quoted string", "query"];
    assert number == Fail(Expected(q, false, ["number", "quoted string", "query"]));
    assert ["boolean"] + ["number", "quoted string", "query"] == ["boolean", "number", "quoted string", "query"];
  }

  // ---------------------------------------------------------------------
  // Argument lists

  /** An argument list whose first argument fails: that failure, required. */
  lemma {:induction false} ArgsFirstFails(s: string, e: nat, d: bool, b: nat, err: ParseError)
    requires e < |s| && s[e] == '(' && SkipBlankAndComments(s, e + 1) == b
    requires !(b < |s| && s[b] == ')') && ParseArg(s, b, d) == Fail(err)
    ensures ParseArgs(s, e, d) == Fail(Required(err))
  {
  }

  /** An argument and a comma, then an argument that fails: that failure,
      required. */
  lemma {:induction false} ArgsSecondFails(s: string, e: nat, d: bool, b: nat, a: Node, n: nat, c: nat, b2: nat, err: ParseError)
    requires e < |s| && s[e] == '(' && SkipBlankAndComments(s, e + 1) == b
    requires !(b < |s| && s[b] == ')') && ParseArg(s, b, d) == Ok(a, n)
    requires SkipBlankAndComments(s, n) == c && c < |s| && s[c] == ','
    requires SkipBlankAndComments(s, c + 1) == b2 && ParseArg(s, b2, d) == Fail(err)
    ensures ParseArgs(s, e, d) == Fail(Required(err))
  {
    ArgListFails(s, b2, d, err);
    CommaThen(s, n, d, a, c, b2, Fail(Required(err)));
    ArgListThen(s, b, d, a, n, Fail(Required(err)));
  }

  lemma {:induction false} ArgListFails(s: string, q: nat, d: bool, err: ParseError)
    requires q <= |s| && ParseArg(s, q, d) == Fail(err)
    ensures ArgList(s, q, d) == Fail(Required(err))
  {
  }

  lemma {:induction false} ArgListThen(s: string, q: nat, d: bool, a: Node, n: nat, r: Res<seq<Node>>)
    requires q <= |s| && ParseArg(s, q, d) == Ok(a, n) && ArgsAfter(s, n, d, a) == r
    ensures ArgList(s, q, d) == r
  {
  }

  /** After an argument, a comma and a list that fails. */
  lemma {:induction false} CommaThen(s: string, n: nat, d: bool, a: Node, c: nat, b: nat, r: Res<seq<Node>>)
    requires n <= |s| && Checked(a) && SkipBlankAndComments(s, n) == c && c < |s| && s[c] == ','
    requires SkipBlankAndComments(s, c + 1) == b && ArgList(s, b, d) == r && r.Fail?
    ensures ArgsAfter(s, n, d, a) == r
  {
  }

  // ---------------------------------------------------------------------
  // Calls

  /** A word that is not a keyword. */
  predicate PlainWord(s: string, p: nat) {
    && StartsWord(s, p)
    && !KeywordAt(s, p, "true") && !KeywordAt(s, p, "false") && !KeywordAt(s, p, "null")
    && !MatchKeywordAt(s, p)
  }

  /** `json` or `meta` followed by a character that ends the name. */
  lemma {:induction false} CallWord(s: string, p: nat)
    requires p + 4 <= |s| && (s[p..p + 4] == "json" || s[p..p + 4] == "meta")
    requires p + 4 == |s| || !IsIdentChar(s[p + 4])
    ensures ScanIdent(s, p) == p + 4 && PlainWord(s, p)
  {
    CallNameNotKeyword(s, p);
    assert forall k | p <= k < p + 4 :: s[k] == s[p..p + 4][k - p];
    IdentRun(s, p, p + 4);
  }

  /** A call whose arguments fail fatally fails with them. */
  lemma {:induction false} CallArgsFail(s: string, p: nat, e: nat, d: bool, err: ParseError)
    requires PlainWord(s, p) && ScanIdent(s, p) == e
    requires ParseArgs(s, e, d) == Fail(err) && Fatal(err)
    ensures ParseOperand(s, p, d) == Fail(err)
  {
    WordTerm(s, p, d);
  }

  /** A call the registry refuses fails at its name with the refusal. */
  lemma {:induction false} CallRejected(s: string, p: nat, e: nat, d: bool, name: string, args: seq<Node>, n: nat, msg: string)
    requires PlainWord(s, p) && ScanIdent(s, p) == e && s[p..e] == name
    requires ParseArgs(s, e, d) == Ok(args, n)
    requires CallError("function", name, FunctionSignature(name), args) == Some(msg)
    ensures ParseOperand(s, p, d) == Fail(Custom(p, msg))
  {
    WordTerm(s, p, d);
  }

  /** In the legacy grammar a word is a call, so a word without an argument
      list fails where the list should open. */
  lemma {:induction false} BareWord(s: string, p: nat, e: nat)
    requires PlainWord(s, p) && ScanIdent(s, p) == e && !(e < |s| && s[e] == '(')
    ensures ParseOperand(s, p, true) == Fail(Expected(e, false, ["function arguments"]))
  {
    WordTerm(s, p, true);
  }

  // ---------------------------------------------------------------------
  // Postfix chains

  /** A method the registry refuses fails at its name. */
  lemma {:induction false} MethodRejected(s: string, q: nat, d: bool, x: Node, name: string, e: nat, args: seq<Node>, n: nat, msg: string)
    requires q + 1 < |s| && s[q] == '.' && s[q + 1] != '(' && Checked(x)
    requires ScanIdent(s, q + 1) == e && e > q + 1 && s[q + 1..e] == name
    requires ParseArgs(s, e, d) == Ok(args, n)
    requires CallError("method", name, MethodSignature(name), args) == Some(msg)
    ensures Tails(s, q, d, x) == Fail(Custom(q + 1, msg))
  {
  }

  /** A method whose arguments fail fatally fails with them. */
  lemma {:induction false} MethodArgsFail(s: string, q: nat, d: bool, x: Node, e: nat, err: ParseError)
    requires q + 1 < |s| && s[q] == '.' && s[q + 1] != '(' && Checked(x)
    requires ScanIdent(s, q + 1) == e && e > q + 1
    requires ParseArgs(s, e, d) == Fail(err) && Fatal(err)
    ensures Tails(s, q, d, x) == Fail(err)
  {
  }

  /** A scoped query `.( ... )` whose body fails: that failure, required. */
  lemma {:induction false} ScopedFails(s: string, q: nat, d: bool, x: Node, b: nat, err: ParseError)
    requires q + 1 < |s| && s[q] == '.' && s[q + 1] == '(' && Checked(x)
    requires SkipBlankAndComments(s, q + 2) == b && ParseQuery(s, b, d) == Fail(err)
    ensures Tails(s, q, d, x) == Fail(Required(err))
  {
  }

  /** A term whose postfix chain fails is an operand that fails. */
  lemma {:induction false} TailsFail(s: string, p: nat, d: bool, x: Node, n: nat, err: ParseError)
    requires p <= |s| && ParseTerm(s, p, d) == Ok(x, n) && Tails(s, n, d, x) == Fail(err)
    ensures ParseOperand(s, p, d) == Fail(err)
  {
  }

  // ---------------------------------------------------------------------
  // Brackets and match blocks

  /** At `(` only the bracket alternative of a term can get anywhere. */
  lemma {:induction false} OnlyBracketAt(s: string, p: nat, d: bool)
    requires p < |s| && s[p] == '('
    ensures SoftAt(ParseMatch(s, p, d), p) && SoftAt(ParseLiteral(s, p, d), p)
    ensures SoftAt(ParseFunction(s, p, d), p) && SoftAt(ParsePath(s, p), p)
  {
    NotKeyword(s, p, "true");
    NotKeyword(s, p, "false");
    NotKeyword(s, p, "null");
    NotMatchKeyword(s, p);
  }

  /** A bracketed query that is not closed fails, required, where the `)`
      should be. */
  lemma {:induction false} BracketUnclosed(s: string, p: nat, d: bool, b: nat, y: Node, n: nat, c: nat)
    requires p < |s| && s[p] == '(' && SkipBlankAndComments(s, p + 1) == b
    requires ParseQuery(s, b, d) == Ok(y, n) && SkipBlankAndComments(s, n) == c
    requires !(c < |s| && s[c] == ')')
    ensures ParseOperand(s, p, d) == Fail(Expected(c, true, ["closing bracket"]))
  {
    OnlyBracketAt(s, p, d);
    assert ParseBracket(s, p, d) == Fail(Expected(c, true, ["closing bracket"]));
  }

  /** A bracket whose query fails beyond the `(` fails with it, required or
      not. */
  lemma {:induction false} BracketInnerFails(s: string, p: nat, d: bool, b: nat, err: ParseError)
    requires p < |s| && s[p] == '(' && SkipBlankAndComments(s, p + 1) == b
    requires ParseQuery(s, b, d) == Fail(err) && err.at > p
    ensures ParseOperand(s, p, d) == Fail(err)
  {
    hide ParseQuery, SkipBlankAndComments;
    OnlyBracketAt(s, p, d);
    assert ParseBracket(s, p, d) == Fail(err);
  }

  /** After `match` and its target, the block decides the match. */
  lemma {:induction false} MatchTarget(s: string, p: nat, d: bool, a: nat, t: Node, n: nat)
    requires MatchKeywordAt(s, p) && SkipSpaces(s, p + 6) == a && ParseQuery(s, a, d) == Ok(t, n)
    ensures n <= |s| && Checked(t) && ParseMatch(s, p, d) == MatchBlock(s, n, d, t)
  {
  }

  /** A match target not followed by `{` fails, required, where the `{`
      should be. */
  lemma {:induction false} MatchUnopened(s: string, p: nat, d: bool, a: nat, t: Node, n: nat, b: nat)
    requires MatchKeywordAt(s, p) && SkipSpaces(s, p + 6) == a
    requires ParseQuery(s, a, d) == Ok(t, n) && SkipBlankAndComments(s, n) == b
    requires !(b < |s| && s[b] == '{')
    ensures ParseOperand(s, p, d) == Fail(Expected(b, true, ["{"]))
  {
    MatchTarget(s, p, d, a, t, n);
    assert MatchBlock(s, n, d, t) == Fail(Expected(b, true, ["{"]));
  }

  // ---------------------------------------------------------------------
  // Queries

  lemma {:induction false} OperandFailsQuery(s: string, p: nat, d: bool, err: ParseError)
    requires p <= |s| && ParseOperand(s, p, d) == Fail(err)
    ensures ParseQuery(s, p, d) == Fail(err)
  {
  }

  lemma {:induction false} ChainFailsQuery(s: string, p: nat, d: bool, x: Node, n: nat, err: ParseError)
    requires p <= |s| && ParseOperand(s, p, d) == Ok(x, n) && OpChain(s, n, d) == Fail(err)
    ensures ParseQuery(s, p, d) == Fail(err)
  {
  }

  // ---------------------------------------------------------------------
  // Unterminated strings

  /** A string body that runs to the end of the input without a closing
      quote fails, required, at the end. */
  lemma {:induction false} UnterminatedRun(s: string, q: nat, acc: string)
    requires 0 < q <= |s|
    requires forall k | q <= k < |s| :: s[k] != '"' && s[k] != '\\'
    ensures ScanString(s, q, acc) == Fail(Expected(|s|, true, ["end quote"]))
    decreases |s| - q
  {
    if q < |s| {
      UnterminatedRun(s, q + 1, acc + [s[q]]);
    }
  }

  /** An unterminated string as an argument and as an element. */
  lemma {:induction false} Unterminated(s: string, q: nat, d: bool)
    requires q < |s| && s[q] == '"'
    requires forall k | q < k < |s| :: s[k] != '"' && s[k] != '\\'
    ensures ParseArg(s, q, d) == Fail(Expected(|s|, true, ["end quote"]))
    ensures ParseElement(s, q, d) == Fail(Expected(|s|, true, ["end quote"]))
  {
    UnterminatedRun(s, q + 1, "");
    NotKeyword(s, q, "true");
    NotKeyword(s, q, "false");
    NotKeyword(s, q, "null");
    assert ParseScalar(s, q) == Fail(Expected(|s|, true, ["end quote"]));
  }

  // ---------------------------------------------------------------------
  // Arrays and objects

  /** An element that fails after `[` or `,`: that failure, required. */
  lemma {:induction false} ElementFails(s: string, q: nat, d: bool, err: ParseError)
    requires q <= |s| && ParseElement(s, q, d) == Fail(err)
    ensures Elements(s, q, d) == Fail(Required(err))
  {
  }

  /** An element and a comma, then elements that fail. */
  lemma {:induction false} ElementThenFails(s: string, q: nat, d: bool, x: Node, n: nat, a: nat, b: nat, err: ParseError)
    requires q <= |s| && ParseElement(s, q, d) == Ok(x, n)
    requires SkipBlankAndComments(s, n) == a && a < |s| && s[a] == ','
    requires SkipBlankAndComments(s, a + 1) == b && Elements(s, b, d) == Fail(err)
    ensures Elements(s, q, d) == Fail(err)
  {
    ElementsStep(s, q, d, x, n);
    CommaThenFails(s, n, d, x, a, b, err);
  }

  /** An element opens the list: what follows it decides the rest. */
  lemma {:induction false} ElementsStep(s: string, q: nat, d: bool, x: Node, n: nat)
    requires q <= |s| && ParseElement(s, q, d) == Ok(x, n)
    ensures n <= |s| && Checked(x) && Elements(s, q, d) == ElementsAfter(s, n, d, x)
  {
  }

  lemma {:induction false} CommaThenFails(s: string, n: nat, d: bool, x: Node, a: nat, b: nat, err: ParseError)
    requires n <= |s| && Checked(x)
    requires SkipBlankAndComments(s, n) == a && a < |s| && s[a] == ','
    requires SkipBlankAndComments(s, a + 1) == b && Elements(s, b, d) == Fail(err)
    ensures ElementsAfter(s, n, d, x) == Fail(err)
  {
  }

  /** An array whose elements fail fatally fails with them. */
  lemma {:induction false} ArrayFails(s: string, p: nat, d: bool, q: nat, err: ParseError)
    requires p < |s| && s[p] == '[' && SkipBlankAndComments(s, p + 1) == q
    requires !(q < |s| && s[q] == ']') && Elements(s, q, d) == Fail(err) && Fatal(err)
    ensures ParseOperand(s, p, d) == Fail(err)
  {
    ScalarSoft(s, p);
    assert ParseArray(s, p, d) == Fail(err);
    assert ParseLiteral(s, p, d) == Fail(err);
    LiteralDecides(s, p, d, Fail(err));
  }

  /** At `[` or `{` a literal that parses, or fails fatally, is the term. */
  lemma {:induction false} LiteralDecides(s: string, p: nat, d: bool, r: Res<Node>)
    requires p < |s| && (s[p] == '[' || s[p] == '{')
    requires ParseLiteral(s, p, d) == r && (r.Ok? || Fatal(r.err))
    ensures ParseTerm(s, p, d) == r
    ensures r.Fail? ==> ParseOperand(s, p, d) == r
  {
    NotMatchKeyword(s, p);
  }

  /** No scalar starts at a bracket or a brace. */
  lemma {:induction false} ScalarSoft(s: string, p: nat)
    requires p < |s| && (s[p] == '[' || s[p] == '{' || s[p] == '(')
    ensures SoftAt(ParseScalar(s, p), p)
  {
    NotKeyword(s, p, "true");
    NotKeyword(s, p, "false");
    NotKeyword(s, p, "null");
    SoftBoth(ParseNumber(s, p), ParseQuotedString(s, p), p);
    SoftBoth(ParseNull(s, p), OneOf(ParseNumber(s, p), ParseQuotedString(s, p)), p);
    SoftBoth(ParseBoolean(s, p), OneOf(ParseNull(s, p), OneOf(ParseNumber(s, p), ParseQuotedString(s, p))), p);
  }

  /** A literal key that is not a string is rejected at the brace. */
  lemma {:induction false} KeyNotString(s: string, q: nat, d: bool, brace: nat, v: Value, n: nat)
    requires brace < q <= |s| && ParseElement(s, q, d) == Ok(Literal(v), n) && !v.Str?
    ensures Entries(s, q, d, brace) == Fail(Custom(brace, "object keys must be strings, received: " + KindName(v)))
  {
  }

  /** An object whose entries fail fatally fails with them. */
  lemma {:induction false} ObjectFails(s: string, p: nat, d: bool, q: nat, err: ParseError)
    requires p < |s| && s[p] == '{' && SkipBlankAndComments(s, p + 1) == q
    requires !(q < |s| && s[q] == '}') && Entries(s, q, d, p) == Fail(err) && Fatal(err)
    ensures ParseOperand(s, p, d) == Fail(err)
  {
    ScalarSoft(s, p);
    assert ParseObject(s, p, d) == Fail(err);
    assert ParseLiteral(s, p, d) == Fail(err);
    LiteralDecides(s, p, d, Fail(err));
  }

  // ---------------------------------------------------------------------
  // Missing delimiters

  /** After an argument, anything but `,` or `)` is a required failure
      naming both. */
  lemma {:induction false} ArgsUnclosed(s: string, q: nat, d: bool, a: Node, n: nat, c: nat)
    requires q <= |s| && ParseArg(s, q, d) == Ok(a, n) && SkipBlankAndComments(s, n) == c
    requires !(c < |s| && (s[c] == ',' || s[c] == ')'))
    ensures ArgList(s, q, d) == Fail(Expected(c, true, [",", ")"]))
  {
    hide ParseArg, SkipBlankAndComments;
    assert ArgsAfter(s, n, d, a) == Fail(Expected(c, true, [",", ")"]));
  }

  /** Where a case or the closing `}` is due and the case fails
      recoverably, the failure becomes required: beyond the offset it is
      the case's own failure, at the offset the `}` joins what was
      expected. A fatal case failure is kept as it is. */
  lemma {:induction false} CasesUnclosed(s: string, q: nat, d: bool, err: ParseError)
    requires q <= |s| && !(q < |s| && s[q] == '}') && ParseCase(s, q, d) == Fail(err)
    ensures Fatal(err) ==> Cases(s, q, d) == Fail(err)
    ensures !Fatal(err) && err.at > q ==> Cases(s, q, d) == Fail(Required(err))
    ensures !Fatal(err) && err.at == q && err.Expected? ==>
              Cases(s, q, d) == Fail(Expected(q, true, err.items + ["}"]))
    ensures Cases(s, q, d).Fail? && Fatal(Cases(s, q, d).err)
  {
    hide ParseCase;
  }

  /** A pattern not followed, after spaces and tabs, by `=>` is a required
      failure naming the arrow. */
  lemma {:induction false} ArrowMissing(s: string, q: nat, d: bool, pat: Pattern, n: nat, a: nat)
    requires q <= |s| && ParsePattern(s, q, d) == Ok(pat, n) && SkipSpaces(s, n) == a
    requires !(a + 1 < |s| && s[a] == '=' && s[a + 1] == '>')
    ensures ParseCase(s, q, d) == Fail(Expected(a, true, ["=>"]))
  {
    hide ParsePattern, SkipSpaces;
    assert CaseResult(s, n, d, pat) == Fail(Expected(a, true, ["=>"]));
  }

  /** After an element, anything but `,` or `]` is a required failure
      naming both. */
  lemma {:induction false} ElementsUnclosed(s: string, q: nat, d: bool, x: Node, n: nat, a: nat)
    requires q <= |s| && ParseElement(s, q, d) == Ok(x, n) && SkipBlankAndComments(s, n) == a
    requires !(a < |s| && (s[a] == ',' || s[a] == ']'))
    ensures Elements(s, q, d) == Fail(Expected(a, true, [",", "]"]))
  {
    hide ParseElement, SkipBlankAndComments;
    ElementsStep(s, q, d, x, n);
    assert ElementsAfter(s, n, d, x) == Fail(Expected(a, true, [",", "]"]));
  }

  /** An accepted key not followed by `:` is a required failure naming the
      colon. */
  lemma {:induction false} ColonMissing(s: string, q: nat, d: bool, brace: nat, k: Node, n: nat, a: nat)
    requires brace < q <= |s| && ParseElement(s, q, d) == Ok(k, n) && SkipBlankAndComments(s, n) == a
    requires !(k.Literal? && !k.value.Str?)
    requires !(a < |s| && s[a] == ':')
    ensures Entries(s, q, d, brace) == Fail(Expected(a, true, [":"]))
  {
    hide ParseElement, SkipBlankAndComments;
    assert EntryValue(s, n, d, brace, k) == Fail(Expected(a, true, [":"]));
    assert ParseEntry(s, q, d, brace) == Fail(Expected(a, true, [":"]));
  }

  /** After an entry, anything but `,` or `}` is a required failure naming
      both. */
  lemma {:induction false} EntriesUnclosed(s: string, q: nat, d: bool, brace: nat, x: Entry, n: nat, c: nat)
    requires brace < q <= |s| && ParseEntry(s, q, d, brace) == Ok(x, n) && SkipBlankAndComments(s, n) == c
    requires !(c < |s| && (s[c] == ',' || s[c] == '}'))
    ensures Entries(s, q, d, brace) == Fail(Expected(c, true, [",", "}"]))
  {
    hide ParseEntry, SkipBlankAndComments;
    assert EntriesAfter(s, n, d, brace, x) == Fail(Expected(c, true, [",", "}"]));
  }

  // ---------------------------------------------------------------------
  // Rendering

  /** No line break comes before offset n. */
  predicate OnFirstLine(s: string, n: nat) {
    n <= |s| && forall k | 0 <= k < n :: s[k] != '\n'
  }

  /** A failure on the first line is rendered with line 1 and its offset
      plus one; `prefix` is that position written out. */
  lemma {:induction false} FirstLineError(s: string, e: ParseError, prefix: string, m: string)
    requires OnFirstLine(s, e.at)
    requires prefix == "line 1 char " + NatToString(e.at + 1) + ": " && Message(e) == m
    ensures ErrorAtPosition(e, s) == prefix + m
  {
    hide Message;
    FirstLineChar(s, e.at);
    OneDigit();
  }

  /** The text of a failure that names one expected item. */
  lemma {:induction false} OneItemMessage(at: nat, required: bool, item: string)
    ensures Message(Expected(at, required, [item]))
            == (if required then "required: expected " else "expected ") + item
  {
    assert JoinOr([item]) == item;
    assert "required: " + "expected " == "required: expected ";
    assert "" + "expected " == "expected ";
  }

  /** The four kinds of argument joined as a list. */
  lemma {:induction false} ArgumentKindsJoined()
    ensures JoinOr(["boolean", "number", "quoted string", "query"]) == "boolean, number, quoted string, or query"
  {
    FourJoined("boolean", "number", "quoted string", "query");
    assert "quoted string" + ", or " + "query" == "quoted string, or query";
    assert "number" + ", " + "quoted string, or query" == "number, quoted string, or query";
    assert "boolean" + ", " == "boolean, ";
    KindsText();
  }

  lemma {:induction false} KindsText()
    ensures "boolean, " + "number, quoted string, or query" == "boolean, number, quoted string, or query"
  {
  }

  /** Four items are separated by commas, the last by `, or`. */
  lemma {:induction false} FourJoined(a: string, b: string, c: string, d: string)
    ensures JoinOr([a, b, c, d]) == a + ", " + (b + ", " + (c + ", or " + d))
  {
    assert [a, b, c, d][1..] == [b, c, d];
    assert [b, c, d][1..] == [c, d];
    assert JoinOrTail([c, d]) == c + ", or " + d;
    assert JoinOrTail([b, c, d]) == b + ", " + JoinOrTail([c, d]);
  }

  /** The message of a missing argument. */
  lemma {:induction false} ArgumentMissingMessage(at: nat)
    ensures Message(Expected(at, true, ["boolean", "number", "quoted string", "query"]))
            == "required: expected boolean, number, quoted string, or query"
  {
    ArgumentKindsJoined();
    assert "required: " + "expected " == "required: expected ";
    RequiredKindsText();
  }

  lemma {:induction false} RequiredKindsText()
    ensures "required: expected " + "boolean, number, quoted string, or query"
            == "required: expected boolean, number, quoted string, or query"
  {
  }
}
