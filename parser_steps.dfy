/**
 * Facts about the grammar at a position, stated over the characters found
 * there: how far an identifier, a string body or a run of blanks reaches,
 * and what a term starting with a given kind of character parses to. The
 * test tables are proved by chaining these.
 */
module ParserSteps {
  import opened Wrappers
  import opened Values
  import opened Ast
  import opened Registry
  import opened Combinators
  import opened Literals
  import opened QueryParser
  import opened Arithmetic

  // ---------------------------------------------------------------------
  // Runs of characters

  /** An identifier ends at the first character that cannot continue it. */
  lemma {:induction false} IdentRun(s: string, p: nat, q: nat)
    requires p <= q <= |s|
    requires forall k | p <= k < q :: IsIdentChar(s[k])
    requires q == |s| || !IsIdentChar(s[q])
    ensures ScanIdent(s, p) == q
    decreases q - p
  {
    if p < q {
      IdentRun(s, p + 1, q);
    }
  }

  /** A string body without quotes or escapes is read as it stands, up to
      the closing quote. */
  lemma {:induction false} PlainRun(s: string, q: nat, acc: string, r: nat)
    requires 0 < q <= r < |s| && s[r] == '"'
    requires forall k | q <= k < r :: s[k] != '"' && s[k] != '\\'
    ensures ScanString(s, q, acc) == Ok(Str(acc + s[q..r]), r + 1)
    decreases r - q
  {
    if q < r {
      PlainRun(s, q + 1, acc + [s[q]], r);
      assert acc + [s[q]] + s[q + 1..r] == acc + s[q..r];
    } else {
      assert acc + s[q..r] == acc;
    }
  }

  /** Blanks and comments stop at once at any other character. */
  lemma {:induction false} SkipNothing(s: string, p: nat)
    requires p < |s| && !IsBlank(s[p]) && s[p] != '#'
    ensures SkipBlankAndComments(s, p) == p && SkipSpaces(s, p) == p
  {
  }

  /** A run of spaces and tabs is skipped to its end. */
  lemma {:induction false} SpacesRun(s: string, p: nat, q: nat)
    requires p <= q <= |s|
    requires forall k | p <= k < q :: IsSpace(s[k])
    requires q == |s| || !IsBlank(s[q])
    ensures SkipSpaces(s, p) == q
    ensures q == |s| || s[q] != '#' ==> SkipBlankAndComments(s, p) == q
    decreases q - p
  {
    if p < q {
      SpacesRun(s, p + 1, q);
    }
    assert SkipBlank(s, p) == q by { BlankRun(s, p, q); }
  }

  lemma {:induction false} BlankRun(s: string, p: nat, q: nat)
    requires p <= q <= |s|
    requires forall k | p <= k < q :: IsBlank(s[k])
    requires q == |s| || !IsBlank(s[q])
    ensures SkipBlank(s, p) == q
    decreases q - p
  {
    if p < q {
      BlankRun(s, p + 1, q);
    }
  }

  // ---------------------------------------------------------------------
  // Terms by their first character

  /** Where a term does not start with `match `, `(`, a literal or a word,
      each of those alternatives fails recoverably right there. */
  predicate SoftAt<T>(r: Res<T>, p: nat) {
    r.Fail? && !Fatal(r.err) && r.err.at == p
  }

  /** A character that starts neither a literal nor a bracket. */
  predicate StartsWord(s: string, p: nat) {
    p < |s| && (('a' <= s[p] <= 'z') || ('A' <= s[p] <= 'Z') || s[p] == '_')
  }

  /** A word that is not `true`, `false`, `null` or `match ` is not a
      literal, a bracket or a match block. */
  lemma {:induction false} WordNotLiteral(s: string, p: nat, d: bool)
    requires StartsWord(s, p)
    requires !KeywordAt(s, p, "true") && !KeywordAt(s, p, "false") && !KeywordAt(s, p, "null")
    requires !MatchKeywordAt(s, p)
    ensures SoftAt(ParseMatch(s, p, d), p) && SoftAt(ParseBracket(s, p, d), p) && SoftAt(ParseLiteral(s, p, d), p)
  {
  }

  /** A term starting with a word is the call or path read there, unless
      that fails recoverably at the word itself. */
  lemma {:induction false} WordTerm(s: string, p: nat, d: bool)
    requires StartsWord(s, p)
    requires !KeywordAt(s, p, "true") && !KeywordAt(s, p, "false") && !KeywordAt(s, p, "null")
    requires !MatchKeywordAt(s, p)
    ensures var w := if d then ParseFunction(s, p, d) else OneOf(ParseFunction(s, p, d), ParsePath(s, p));
      w.Ok? || Fatal(w.err) || w.err.at > p ==> ParseTerm(s, p, d) == w
  {
    WordNotLiteral(s, p, d);
  }

  /** The first letters of `json` and `meta` rule out the keywords. */
  lemma {:induction false} CallNameNotKeyword(s: string, p: nat)
    requires p + 4 <= |s| && (s[p..p + 4] == "json" || s[p..p + 4] == "meta")
    ensures StartsWord(s, p)
    ensures !KeywordAt(s, p, "true") && !KeywordAt(s, p, "false") && !KeywordAt(s, p, "null")
    ensures !MatchKeywordAt(s, p)
  {
    assert s[p] == s[p..p + 4][0] && s[p + 1] == s[p..p + 4][1];
    if p + 5 <= |s| {
      assert s[p..p + 5][1] == s[p + 1];
    }
  }

  /** A quoted string without escapes. */
  lemma {:induction false} QuotedAt(s: string, p: nat, r: nat)
    requires p < r < |s| && s[p] == '"' && s[r] == '"'
    requires forall k | p < k < r :: s[k] != '"' && s[k] != '\\'
    ensures ParseQuotedString(s, p) == Ok(Str(s[p + 1..r]), r + 1)
    ensures ParseScalar(s, p) == Ok(Str(s[p + 1..r]), r + 1)
  {
    PlainRun(s, p + 1, "", r);
    assert "" + s[p + 1..r] == s[p + 1..r];
    if p + 4 <= |s| { assert s[p..p + 4][0] == s[p]; }
    if p + 5 <= |s| { assert s[p..p + 5][0] == s[p]; }
  }

  /** A scalar is a literal, an element and an argument. */
  lemma {:induction false} ScalarLiteral(s: string, p: nat, d: bool)
    requires p <= |s| && ParseScalar(s, p).Ok?
    ensures var lit := Lift(ParseScalar(s, p));
      ParseLiteral(s, p, d) == lit && ParseElement(s, p, d) == lit
  {
  }

  /** A string literal argument. */
  lemma {:induction false} QuotedArg(s: string, p: nat, r: nat, d: bool)
    requires p < r < |s| && s[p] == '"' && s[r] == '"'
    requires forall k | p < k < r :: s[k] != '"' && s[k] != '\\'
    ensures ParseArg(s, p, d) == Ok(Literal(Str(s[p + 1..r])), r + 1)
  {
    QuotedAt(s, p, r);
    if p + 4 <= |s| { assert s[p..p + 4][0] == s[p]; }
    if p + 5 <= |s| { assert s[p..p + 5][0] == s[p]; }
  }

  /** A term starting with a quote is that string. */
  lemma {:induction false} QuotedTerm(s: string, p: nat, r: nat, d: bool)
    requires p < r < |s| && s[p] == '"' && s[r] == '"'
    requires forall k | p < k < r :: s[k] != '"' && s[k] != '\\'
    ensures ParseTerm(s, p, d) == Ok(Literal(Str(s[p + 1..r])), r + 1)
  {
    QuotedAt(s, p, r);
    ScalarLiteral(s, p, d);
    if p + 6 <= |s| { assert s[p..p + 5][0] == s[p]; }
  }

  /** `(` one argument `)`. */
  lemma {:induction false} SingleArg(s: string, e: nat, d: bool, arg: Node, n: nat)
    requires e + 1 < |s| && s[e] == '(' && !IsBlank(s[e + 1]) && s[e + 1] != '#' && s[e + 1] != ')'
    requires ParseArg(s, e + 1, d) == Ok(arg, n)
    requires n < |s| && s[n] == ')'
    ensures ParseArgs(s, e, d) == Ok([arg], n + 1)
  {
    SkipNothing(s, n);
    assert [arg] + [] == [arg];
    assert ArgsAfter(s, n, d, arg) == Ok([arg], n + 1);
    SkipNothing(s, e + 1);
  }

  /** `("x")`: one string argument. */
  lemma {:induction false} StringArgs(s: string, e: nat, r: nat, d: bool)
    requires e + 2 <= r && r + 2 <= |s|
    requires s[e] == '(' && s[e + 1] == '"' && s[r] == '"' && s[r + 1] == ')'
    requires forall k | e + 1 < k < r :: s[k] != '"' && s[k] != '\\'
    ensures ParseArgs(s, e, d) == Ok([Literal(Str(s[e + 2..r]))], r + 2)
  {
    QuotedArg(s, e + 1, r, d);
    SingleArg(s, e, d, Literal(Str(s[e + 2..r])), r + 1);
  }

  /** A function call whose name and arguments the registry accepts. */
  lemma {:induction false} AcceptedCall(s: string, p: nat, e: nat, d: bool, args: seq<Node>, n: nat)
    requires p < e <= |s| && ScanIdent(s, p) == e
    requires ParseArgs(s, e, d) == Ok(args, n)
    requires CallAccepted(FunctionSignature(s[p..e]), args)
    ensures ParseFunction(s, p, d) == Ok(Function(s[p..e], args), n)
  {
  }

  /** `json("x")` or `meta("x")` with an escape-free string, by span. */
  lemma {:induction false} StringCallSpan(s: string, p: nat, r: nat, d: bool)
    requires p + 6 <= r && r + 2 <= |s|
    requires s[p..p + 4] == "json" || s[p..p + 4] == "meta"
    requires s[p + 4] == '(' && s[p + 5] == '"' && s[r] == '"' && s[r + 1] == ')'
    requires forall k | p + 5 < k < r :: s[k] != '"' && s[k] != '\\'
    ensures ParseTerm(s, p, d) == Ok(Function(s[p..p + 4], [Literal(Str(s[p + 6..r]))]), r + 2)
  {
    var e := p + 4;
    assert forall k | p <= k < e :: s[k] == s[p..e][k - p];
    IdentRun(s, p, e);
    StringArgs(s, e, r, d);
    var args := [Literal(Str(s[p + 6..r]))];
    assert CallAccepted(FunctionSignature(s[p..e]), args);
    AcceptedCall(s, p, e, d, args, r + 2);
    CallNameNotKeyword(s, p);
    WordTerm(s, p, d);
  }

  /** `name("body")` with name `json` or `meta` and an escape-free body. */
  lemma {:induction false} StringCall(s: string, p: nat, name: string, body: string, d: bool)
    requires name == "json" || name == "meta"
    requires p + 8 + |body| <= |s| && s[p..p + 4] == name
    requires s[p + 4] == '(' && s[p + 5] == '"' && s[p + 6..p + 6 + |body|] == body
    requires s[p + 6 + |body|] == '"' && s[p + 7 + |body|] == ')'
    requires forall k | 0 <= k < |body| :: body[k] != '"' && body[k] != '\\'
    ensures ParseTerm(s, p, d) == Ok(Function(name, [Literal(Str(body))]), p + 8 + |body|)
  {
    var r := p + 6 + |body|;
    forall k | p + 5 < k < r ensures s[k] != '"' && s[k] != '\\' {
      assert s[k] == body[k - p - 6];
    }
    StringCallSpan(s, p, r, d);
  }

  /** Such a call, ending before n and not followed by a dot, is a whole
      operand. */
  lemma {:induction false} StringOperand(s: string, p: nat, name: string, body: string, n: nat, d: bool)
    requires name == "json" || name == "meta"
    requires n == p + 8 + |body| <= |s| && s[p..p + 4] == name
    requires s[p + 4] == '(' && s[p + 5] == '"' && s[p + 6..p + 6 + |body|] == body
    requires s[n - 2] == '"' && s[n - 1] == ')'
    requires forall k | 0 <= k < |body| :: body[k] != '"' && body[k] != '\\'
    requires n == |s| || s[n] != '.'
    ensures ParseOperand(s, p, d) == Ok(Function(name, [Literal(Str(body))]), n)
  {
    StringCall(s, p, name, body, d);
    NoTails(s, p, d, Function(name, [Literal(Str(body))]), n);
  }

  // ---------------------------------------------------------------------
  // Operands, operator chains and the entry points

  /** A term not followed by a dot has no postfix chain. */
  lemma {:induction false} NoTails(s: string, p: nat, d: bool, x: Node, n: nat)
    requires p <= |s| && ParseTerm(s, p, d) == Ok(x, n)
    requires n == |s| || s[n] != '.'
    ensures ParseOperand(s, p, d) == Ok(x, n)
  {
  }

  /** No operator after the optional spaces: the chain is empty. */
  lemma {:induction false} ChainEnd(s: string, q: nat, d: bool)
    requires q <= |s| && OperatorAt(s, SkipSpaces(s, q)).None?
    ensures OpChain(s, q, d) == Ok(Chain([], []), q)
  {
  }

  /** An operator spelled from a up to c and its right operand, then the
      rest of the chain. */
  lemma {:induction false} ChainStep(s: string, q: nat, d: bool, a: nat, op: Op, c: nat, b: nat, x: Node, n: nat, rest: Chain, m: nat)
    requires q <= |s| && SkipSpaces(s, q) == a
    requires a <= c && OperatorAt(s, a) == Some((op, c - a))
    requires SkipBlankAndComments(s, c) == b
    requires ParseOperand(s, b, d) == Ok(x, n)
    requires OpChain(s, n, d) == Ok(rest, m)
    ensures OpChain(s, q, d) == Ok(Chain([op] + rest.ops, [x] + rest.operands), m)
  {
    OperatorThen(s, q, d, a, op, c, b);
    OperandThen(s, op, b, d, x, n, rest, m);
  }

  /** After the operator the chain continues with its operand. */
  lemma {:induction false} OperatorThen(s: string, q: nat, d: bool, a: nat, op: Op, c: nat, b: nat)
    requires q <= |s| && SkipSpaces(s, q) == a
    requires a <= c && OperatorAt(s, a) == Some((op, c - a))
    requires SkipBlankAndComments(s, c) == b
    ensures OpChain(s, q, d) == OperandChain(s, op, b, d)
  {
    var o := OperatorAt(s, a).value;
    assert o.0 == op && a + o.1 == c;
    SkipFrom(s, a, o.1, c, b);
  }

  lemma {:induction false} OperandThen(s: string, op: Op, b: nat, d: bool, x: Node, n: nat, rest: Chain, m: nat)
    requires b <= |s| && ParseOperand(s, b, d) == Ok(x, n)
    requires OpChain(s, n, d) == Ok(rest, m)
    ensures OperandChain(s, op, b, d) == Ok(Chain([op] + rest.ops, [x] + rest.operands), m)
  {
  }

  /** An operator with nothing that parses after it: the operand's failure. */
  lemma {:induction false} ChainBroken(s: string, q: nat, d: bool, a: nat, op: Op, c: nat, b: nat, e: ParseError)
    requires q <= |s| && SkipSpaces(s, q) == a
    requires a <= c && OperatorAt(s, a) == Some((op, c - a))
    requires SkipBlankAndComments(s, c) == b
    requires ParseOperand(s, b, d) == Fail(e)
    ensures OpChain(s, q, d) == Fail(e)
  {
    OperatorThen(s, q, d, a, op, c, b);
  }

  lemma {:induction false} SkipFrom(s: string, a: nat, w: nat, c: nat, b: nat)
    requires c == a + w <= |s| && SkipBlankAndComments(s, c) == b
    ensures SkipBlankAndComments(s, a + w) == b
  {
  }

  lemma {:induction false} QueryOk(s: string, p: nat, d: bool, x: Node, n: nat, ch: Chain, m: nat)
    requires p <= |s| && ParseOperand(s, p, d) == Ok(x, n)
    requires OpChain(s, n, d) == Ok(ch, m)
    requires |ch.ops| == |ch.operands|
    ensures ParseQuery(s, p, d) == Ok(BuildChain([x] + ch.operands, ch.ops), m)
  {
  }

  /** A single operand is the whole query. */
  lemma {:induction false} SingleOperand(s: string, p: nat, d: bool, x: Node, n: nat)
    requires p <= |s| && ParseOperand(s, p, d) == Ok(x, n)
    requires OperatorAt(s, SkipSpaces(s, n)).None?
    ensures ParseQuery(s, p, d) == Ok(x, n)
  {
    ChainEnd(s, n, d);
    assert [x] + [] == [x];
  }

  /** Two operands joined by one operator. */
  lemma {:induction false} TwoOperands(x: Node, op: Op, y: Node)
    ensures BuildChain([x, y], [op]) == BinOp(op, x, y)
  {
    var xs, ops := [x, y], [op];
    assert SplitIndex(ops) == 0;
    assert xs[..1] == [x] && xs[1..] == [y] && ops[..0] == [] && ops[1..] == [];
    assert Resolve(xs[..1], ops[..0]) == Leaf(x);
    assert Resolve(xs[1..], ops[1..]) == Leaf(y);
    assert Resolve(xs, ops) == Bin(op, Leaf(x), Leaf(y));
    assert ToNode(Bin(op, Leaf(x), Leaf(y))) == BinOp(op, x, y);
  }

  lemma {:induction false} AcceptedWith(s: string, d: bool, q: nat, x: Node, m: nat)
    requires SkipBlankAndComments(s, 0) == q && ParseQuery(s, q, d) == Ok(x, m)
    ensures ParseIn(s, d) == Parsed(Some(x), s[m..], None)
  {
  }

  lemma {:induction false} RejectedWith(s: string, d: bool, q: nat, e: ParseError)
    requires SkipBlankAndComments(s, 0) == q && ParseQuery(s, q, d) == Fail(e)
    ensures TryParse(s, d) == Rejected(e)
  {
  }

  /** A query that is one operand: the rest of the input after it is left. */
  lemma {:induction false} SingleQuery(s: string, d: bool, q: nat, x: Node, n: nat)
    requires SkipBlankAndComments(s, 0) == q && ParseOperand(s, q, d) == Ok(x, n)
    requires OperatorAt(s, SkipSpaces(s, n)).None?
    ensures ParseIn(s, d) == Parsed(Some(x), s[n..], None)
  {
    SingleOperand(s, q, d, x, n);
    AcceptedWith(s, d, q, x, n);
  }

  /** One operator and its operand, and nothing after them: a chain of one. */
  lemma {:induction false} ChainOfOne(s: string, d: bool, n: nat, a: nat, op: Op, c: nat, b: nat, y: Node, m: nat)
    requires n <= |s| && SkipSpaces(s, n) == a && a <= c && OperatorAt(s, a) == Some((op, c - a))
    requires SkipBlankAndComments(s, c) == b && ParseOperand(s, b, d) == Ok(y, m)
    requires OperatorAt(s, SkipSpaces(s, m)).None?
    ensures OpChain(s, n, d) == Ok(Chain([op], [y]), m)
  {
    ChainEnd(s, m, d);
    ChainStep(s, n, d, a, op, c, b, y, m, Chain([], []), m);
    assert Chain([op] + [], [y] + []) == Chain([op], [y]);
  }

  /** A query of two operands and one operator. */
  lemma {:induction false} BinaryQuery(s: string, d: bool, q: nat, x: Node, n: nat, y: Node, op: Op, m: nat)
    requires SkipBlankAndComments(s, 0) == q && ParseOperand(s, q, d) == Ok(x, n)
    requires OpChain(s, n, d) == Ok(Chain([op], [y]), m)
    ensures ParseIn(s, d) == Parsed(Some(BinOp(op, x, y)), s[m..], None)
  {
    QueryOk(s, q, d, x, n, Chain([op], [y]), m);
    assert [x] + [y] == [x, y];
    TwoOperands(x, op, y);
    AcceptedWith(s, d, q, BinOp(op, x, y), m);
  }
}
