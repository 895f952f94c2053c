/**
 * What the remaining kinds of term parse to: calls without arguments,
 * number, boolean and null literals, paths, bracketed queries and match
 * blocks; the postfix tails `.field`, `.method(args)` and `.(query)`; and
 * queries of two and three operands. Stated over the positions and
 * characters found in the input, like the facts they build on.
 */
module ParserTerms {
  import opened Wrappers
  import opened Values
  import opened Ast
  import opened Registry
  import opened Combinators
  import opened Literals
  import opened QueryParser
  import opened Arithmetic
  import opened ParserSteps
  import opened ParserFailures

  // ---------------------------------------------------------------------
  // Calls and literals

  /** `()`: an empty argument list. */
  lemma {:induction false} NoArgs(s: string, e: nat, d: bool)
    requires e + 1 < |s| && s[e] == '(' && s[e + 1] == ')'
    ensures ParseArgs(s, e, d) == Ok([], e + 2)
  {
    SkipNothing(s, e + 1);
  }

  /** `json()` or `meta()`. */
  lemma {:induction false} NoArgCall(s: string, p: nat, name: string, d: bool)
    requires name == "json" || name == "meta"
    requires p + 6 <= |s| && s[p..p + 4] == name && s[p + 4] == '(' && s[p + 5] == ')'
    ensures ParseTerm(s, p, d) == Ok(Function(name, []), p + 6)
  {
    var e := p + 4;
    assert forall k | p <= k < e :: s[k] == s[p..e][k - p];
    IdentRun(s, p, e);
    NoArgs(s, e, d);
    assert CallAccepted(FunctionSignature(s[p..e]), []);
    AcceptedCall(s, p, e, d, [], p + 6);
    CallNameNotKeyword(s, p);
    WordTerm(s, p, d);
  }

  /** A number starting with a digit, as a term and as an argument. */
  lemma {:induction false} NumberTerm(s: string, p: nat, v: int, q: nat, d: bool)
    requires p < |s| && IsDigit(s[p]) && ParseNumber(s, p) == Ok(Int64(v), q)
    ensures ParseTerm(s, p, d) == Ok(Literal(Int64(v)), q)
    ensures ParseArg(s, p, d) == Ok(Literal(Int64(v)), q)
  {
    NotKeyword(s, p, "true");
    NotKeyword(s, p, "false");
    NotKeyword(s, p, "null");
    NotMatchKeyword(s, p);
    ScalarLiteral(s, p, d);
  }

  /** A single digit not followed by another digit or a dot. */
  lemma {:induction false} SingleDigit(s: string, p: nat)
    requires p < |s| && IsDigit(s[p]) && (p + 1 == |s| || (!IsDigit(s[p + 1]) && s[p + 1] != '.'))
    ensures ParseNumber(s, p) == Ok(Int64((s[p] as int) - ('0' as int)), p + 1)
  {
    ScanDigitsRun(s, p, p + 1);
    assert s[p..p + 1] == [s[p]];
    assert [s[p]][..0] == [];
    assert DigitsValue([s[p]]) == (s[p] as int) - ('0' as int);
  }

  /** A number starting with a digit, as an element. */
  lemma {:induction false} NumberElement(s: string, p: nat, v: int, q: nat, d: bool)
    requires p < |s| && IsDigit(s[p]) && ParseNumber(s, p) == Ok(Int64(v), q)
    ensures ParseElement(s, p, d) == Ok(Literal(Int64(v)), q)
  {
    NotKeyword(s, p, "true");
    NotKeyword(s, p, "false");
    NotKeyword(s, p, "null");
    ScalarLiteral(s, p, d);
  }

  /** `null` as an element. */
  lemma {:induction false} NullElement(s: string, p: nat, d: bool)
    requires p < |s| && s[p] == 'n' && KeywordAt(s, p, "null")
    ensures ParseElement(s, p, d) == Ok(Literal(Null), p + 4)
  {
    NotKeyword(s, p, "true");
    NotKeyword(s, p, "false");
    ScalarLiteral(s, p, d);
  }

  /** `true` or `false` as an argument. */
  lemma {:induction false} BooleanArg(s: string, p: nat, b: bool, q: nat, d: bool)
    requires p <= |s| && ParseBoolean(s, p) == Ok(Bool(b), q)
    ensures ParseArg(s, p, d) == Ok(Literal(Bool(b)), q)
  {
  }

  /** `null` as a term. */
  lemma {:induction false} NullTerm(s: string, p: nat, d: bool)
    requires p < |s| && s[p] == 'n' && KeywordAt(s, p, "null")
    ensures ParseTerm(s, p, d) == Ok(Literal(Null), p + 4)
  {
    NotKeyword(s, p, "true");
    NotKeyword(s, p, "false");
    NotMatchKeyword(s, p);
    ScalarLiteral(s, p, d);
  }

  /** A quoted string with the given escape-free body, as a term. */
  lemma {:induction false} StringTerm(s: string, p: nat, body: string, r: nat, d: bool)
    requires p < r < |s| && s[p] == '"' && s[r] == '"' && s[p + 1..r] == body
    requires forall k | 0 <= k < |body| :: body[k] != '"' && body[k] != '\\'
    ensures ParseTerm(s, p, d) == Ok(Literal(Str(body)), r + 1)
  {
    forall k | p < k < r ensures s[k] != '"' && s[k] != '\\' {
      assert s[k] == body[k - p - 1];
    }
    QuotedTerm(s, p, r, d);
  }

  // ---------------------------------------------------------------------
  // Paths

  /** The last segment of a path: no dot, or a dot not followed by a plain
      name. */
  lemma {:induction false} SegmentsEnd(s: string, q: nat)
    requires q <= |s| && !(q < |s| && s[q] == '.' && ScanIdent(s, q + 1) > q + 1)
    ensures PathSegments(s, q) == ([], q)
  {
  }

  /** `.seg` continues a path. */
  lemma {:induction false} SegmentStep(s: string, q: nat, e: nat, seg: string, rest: seq<string>, n: nat)
    requires q < |s| && s[q] == '.' && ScanIdent(s, q + 1) == e && e > q + 1 && s[q + 1..e] == seg
    requires !(e < |s| && s[e] == '(') && PathSegments(s, e) == (rest, n)
    ensures PathSegments(s, q) == ([seg] + rest, n)
  {
  }

  /** A word read as a path in the current grammar, where it is not a
      call; a path rooted at `this` drops the root. */
  lemma {:induction false} PathTerm(s: string, p: nat, e: nat, root: string, segs: seq<string>, n: nat)
    requires PlainWord(s, p) && ScanIdent(s, p) == e && s[p..e] == root
    requires !(e < |s| && s[e] == '(') && PathSegments(s, e) == (segs, n)
    ensures ParseTerm(s, p, false) == Ok(Path(if root == "this" then segs else [root] + segs), n)
  {
    WordTerm(s, p, false);
  }

  // ---------------------------------------------------------------------
  // Brackets and match blocks

  /** `(` query `)`. */
  lemma {:induction false} BracketTerm(s: string, p: nat, d: bool, b: nat, y: Node, n: nat, c: nat)
    requires p < |s| && s[p] == '(' && SkipBlankAndComments(s, p + 1) == b
    requires ParseQuery(s, b, d) == Ok(y, n) && SkipBlankAndComments(s, n) == c
    requires c < |s| && s[c] == ')'
    ensures ParseTerm(s, p, d) == Ok(y, c + 1)
  {
    NotMatchKeyword(s, p);
  }

  /** `match target { cases }`. */
  lemma {:induction false} MatchTerm(s: string, p: nat, d: bool, a: nat, t: Node, n: nat, b: nat, c: nat, cs: seq<Case>, m: nat)
    requires MatchKeywordAt(s, p) && SkipSpaces(s, p + 6) == a
    requires ParseQuery(s, a, d) == Ok(t, n) && SkipBlankAndComments(s, n) == b
    requires b < |s| && s[b] == '{' && SkipBlankAndComments(s, b + 1) == c
    requires Cases(s, c, d) == Ok(cs, m)
    ensures ParseTerm(s, p, d) == Ok(Match(t, cs), m)
  {
    MatchParsed(s, p, d, a, t, n, b, c, cs, m);
  }

  lemma {:induction false} MatchParsed(s: string, p: nat, d: bool, a: nat, t: Node, n: nat, b: nat, c: nat, cs: seq<Case>, m: nat)
    requires MatchKeywordAt(s, p) && SkipSpaces(s, p + 6) == a
    requires ParseQuery(s, a, d) == Ok(t, n) && SkipBlankAndComments(s, n) == b
    requires b < |s| && s[b] == '{' && SkipBlankAndComments(s, b + 1) == c
    requires Cases(s, c, d) == Ok(cs, m)
    ensures ParseMatch(s, p, d) == Ok(Match(t, cs), m)
  {
    MatchTarget(s, p, d, a, t, n);
    MatchBlockOk(s, n, d, t, b, c, cs, m);
  }

  lemma {:induction false} MatchBlockOk(s: string, n: nat, d: bool, t: Node, b: nat, c: nat, cs: seq<Case>, m: nat)
    requires n <= |s| && Checked(t) && SkipBlankAndComments(s, n) == b
    requires b < |s| && s[b] == '{' && SkipBlankAndComments(s, b + 1) == c
    requires Cases(s, c, d) == Ok(cs, m)
    ensures MatchBlock(s, n, d, t) == Ok(Match(t, cs), m)
  {
  }

  /** The closing `}` of a match block. */
  lemma {:induction false} CasesClose(s: string, q: nat, d: bool)
    requires q < |s| && s[q] == '}'
    ensures Cases(s, q, d) == Ok([], q + 1)
  {
  }

  /** A case, a line break or other blanks, and the rest of the cases. */
  lemma {:induction false} CasesStep(s: string, q: nat, d: bool, c: Case, n: nat, a: nat, rest: seq<Case>, m: nat)
    requires q < |s| && s[q] != '}' && ParseCase(s, q, d) == Ok(c, n)
    requires SkipBlankAndComments(s, n) == a && !(a < |s| && s[a] == ',')
    requires Cases(s, a, d) == Ok(rest, m)
    ensures Cases(s, q, d) == Ok([c] + rest, m)
  {
    assert CasesAfter(s, n, d, c) == Ok([c] + rest, m);
  }

  /** `pattern => result` where the pattern is a query. */
  lemma {:induction false} TestCase(s: string, q: nat, d: bool, pat: Node, n: nat, a: nat, b: nat, res: Node, m: nat)
    requires q < |s| && s[q] != '_' && ParseQuery(s, q, d) == Ok(pat, n)
    requires SkipSpaces(s, n) == a && a + 1 < |s| && s[a] == '=' && s[a + 1] == '>'
    requires SkipBlankAndComments(s, a + 2) == b && ParseQuery(s, b, d) == Ok(res, m)
    ensures ParseCase(s, q, d) == Ok(Case(Test(pat), res), m)
  {
    assert ParsePattern(s, q, d) == Ok(Test(pat), n);
    ArrowThen(s, n, d, Test(pat), a, b, res, m);
  }

  lemma {:induction false} ArrowThen(s: string, n: nat, d: bool, pat: Pattern, a: nat, b: nat, res: Node, m: nat)
    requires n <= |s| && (pat.Test? ==> Checked(pat.node))
    requires SkipSpaces(s, n) == a && a + 1 < |s| && s[a] == '=' && s[a + 1] == '>'
    requires SkipBlankAndComments(s, a + 2) == b && ParseQuery(s, b, d) == Ok(res, m)
    ensures CaseResult(s, n, d, pat) == Ok(Case(pat, res), m)
  {
  }

  // ---------------------------------------------------------------------
  // Postfix tails

  /** A term and its postfix chain make an operand. */
  lemma {:induction false} TermThenTails(s: string, p: nat, d: bool, x: Node, n: nat, r: Res<Node>)
    requires p <= |s| && ParseTerm(s, p, d) == Ok(x, n) && Tails(s, n, d, x) == r
    ensures ParseOperand(s, p, d) == r
  {
  }

  /** No dot: the chain ends. */
  lemma {:induction false} TailsEnd(s: string, q: nat, d: bool, x: Node)
    requires q <= |s| && Checked(x) && !(q < |s| && s[q] == '.')
    ensures Tails(s, q, d, x) == Ok(x, q)
  {
  }

  /** A dot followed by neither `(` nor a name ends the chain before the
      dot. */
  lemma {:induction false} TailsStop(s: string, q: nat, d: bool, x: Node)
    requires q + 1 < |s| && s[q] == '.' && s[q + 1] != '(' && !IsIdentChar(s[q + 1]) && Checked(x)
    ensures Tails(s, q, d, x) == Ok(x, q)
  {
  }

  /** `.field`: a name not followed by `(`. */
  lemma {:induction false} FieldTail(s: string, q: nat, d: bool, x: Node, field: string, e: nat, r: Res<Node>)
    requires q + 1 < |s| && s[q] == '.' && s[q + 1] != '(' && Checked(x)
    requires ScanIdent(s, q + 1) == e && e > q + 1 && s[q + 1..e] == field
    requires !(e < |s| && s[e] == '(') && Tails(s, e, d, Get(x, field)) == r
    ensures Tails(s, q, d, x) == r
  {
    assert ParseMethod(s, q, d, x) == Fail(Expected(e, false, ["function arguments"]));
  }

  /** `.name(args)` for a method the registry accepts with those arguments. */
  lemma {:induction false} MethodTail(s: string, q: nat, d: bool, x: Node, name: string, e: nat, args: seq<Node>, n: nat, r: Res<Node>)
    requires q + 1 < |s| && s[q] == '.' && s[q + 1] != '(' && Checked(x)
    requires ScanIdent(s, q + 1) == e && e > q + 1 && s[q + 1..e] == name
    requires ParseArgs(s, e, d) == Ok(args, n) && CallAccepted(MethodSignature(name), args)
    requires Tails(s, n, d, Method(x, name, args)) == r
    ensures Tails(s, q, d, x) == r
  {
    assert ParseMethod(s, q, d, x) == Ok(Method(x, name, args), n);
  }

  /** `.(query)`. */
  lemma {:induction false} ScopedTail(s: string, q: nat, d: bool, x: Node, b: nat, y: Node, n: nat, c: nat, r: Res<Node>)
    requires q + 1 < |s| && s[q] == '.' && s[q + 1] == '(' && Checked(x)
    requires SkipBlankAndComments(s, q + 2) == b && ParseQuery(s, b, d) == Ok(y, n)
    requires SkipBlankAndComments(s, n) == c && c < |s| && s[c] == ')'
    requires Tails(s, c + 1, d, Scoped(x, y)) == r
    ensures Tails(s, q, d, x) == r
  {
    ScopedStep(s, q, d, x, b, y, n, c);
  }

  lemma {:induction false} ScopedStep(s: string, q: nat, d: bool, x: Node, b: nat, y: Node, n: nat, c: nat)
    requires q + 1 < |s| && s[q] == '.' && s[q + 1] == '(' && Checked(x)
    requires SkipBlankAndComments(s, q + 2) == b && ParseQuery(s, b, d) == Ok(y, n)
    requires SkipBlankAndComments(s, n) == c && c < |s| && s[c] == ')'
    ensures c + 1 <= |s| && Checked(Scoped(x, y)) && Tails(s, q, d, x) == Tails(s, c + 1, d, Scoped(x, y))
  {
    ScopedOk(s, q, d, x, b, y, n, c);
    ScopedThenTails(s, q, d, x, Scoped(x, y), c + 1);
  }

  /** After a scoped tail the chain goes on from its closing bracket. */
  lemma {:induction false} ScopedThenTails(s: string, q: nat, d: bool, x: Node, z: Node, k: nat)
    requires q < |s| && s[q] == '.' && Checked(x) && ParseScoped(s, q, d, x) == Ok(z, k)
    ensures k <= |s| && Checked(z) && Tails(s, q, d, x) == Tails(s, k, d, z)
  {
  }

  lemma {:induction false} ScopedOk(s: string, q: nat, d: bool, x: Node, b: nat, y: Node, n: nat, c: nat)
    requires q + 1 < |s| && s[q] == '.' && s[q + 1] == '(' && Checked(x)
    requires SkipBlankAndComments(s, q + 2) == b && ParseQuery(s, b, d) == Ok(y, n)
    requires SkipBlankAndComments(s, n) == c && c < |s| && s[c] == ')'
    ensures ParseScoped(s, q, d, x) == Ok(Scoped(x, y), c + 1)
  {
  }

  // ---------------------------------------------------------------------
  // Queries

  /** Two operands and an operator, as a query anywhere in the input. */
  lemma {:induction false} BinaryOperands(s: string, p: nat, d: bool, x: Node, n: nat, op: Op, y: Node, m: nat)
    requires p <= |s| && ParseOperand(s, p, d) == Ok(x, n)
    requires OpChain(s, n, d) == Ok(Chain([op], [y]), m)
    ensures ParseQuery(s, p, d) == Ok(BinOp(op, x, y), m)
  {
    QueryOk(s, p, d, x, n, Chain([op], [y]), m);
    assert [x] + [y] == [x, y];
    TwoOperands(x, op, y);
  }

  /** Three operands whose second operator binds no tighter than the
      first: the first pair groups to the left. */
  lemma {:induction false} LeftGrouped(x: Node, o1: Op, y: Node, o2: Op, z: Node)
    requires Prec(o2) <= Prec(o1)
    ensures BuildChain([x, y, z], [o1, o2]) == BinOp(o2, BinOp(o1, x, y), z)
  {
    var xs, ops := [x, y, z], [o1, o2];
    assert ops[..1] == [o1];
    assert SplitIndex(ops[..1]) == 0;
    assert SplitIndex(ops) == 1;
    assert xs[..2] == [x, y] && xs[2..] == [z] && ops[2..] == [];
    assert Resolve(xs, ops) == Bin(o2, Resolve([x, y], [o1]), Resolve([z], []));
    assert Resolve([x, y], [o1]) == Bin(o1, Leaf(x), Leaf(y)) by {
      assert [x, y][..1] == [x] && [x, y][1..] == [y] && [o1][..0] == [] && [o1][1..] == [];
    }
    assert Resolve([z], []) == Leaf(z);
    var tree := Bin(o2, Bin(o1, Leaf(x), Leaf(y)), Leaf(z));
    assert Resolve(xs, ops) == tree;
    assert ToNode(Bin(o1, Leaf(x), Leaf(y))) == BinOp(o1, x, y);
    assert ToNode(tree) == BinOp(o2, BinOp(o1, x, y), z);
  }

  /** A chain of two operators and their operands. */
  lemma {:induction false} ChainOfTwo(s: string, d: bool, n: nat, a: nat, op: Op, c: nat, b: nat, y: Node, m: nat, o2: Op, z: Node, k: nat)
    requires n <= |s| && SkipSpaces(s, n) == a && a <= c && OperatorAt(s, a) == Some((op, c - a))
    requires SkipBlankAndComments(s, c) == b && ParseOperand(s, b, d) == Ok(y, m)
    requires OpChain(s, m, d) == Ok(Chain([o2], [z]), k)
    ensures OpChain(s, n, d) == Ok(Chain([op, o2], [y, z]), k)
  {
    ChainStep(s, n, d, a, op, c, b, y, m, Chain([o2], [z]), k);
    assert [op] + [o2] == [op, o2] && [y] + [z] == [y, z];
  }

  /** Three operands grouping to the left, as a query. */
  lemma {:induction false} TernaryOperands(s: string, p: nat, d: bool, x: Node, n: nat, o1: Op, y: Node, o2: Op, z: Node, m: nat)
    requires p <= |s| && ParseOperand(s, p, d) == Ok(x, n)
    requires OpChain(s, n, d) == Ok(Chain([o1, o2], [y, z]), m)
    requires Prec(o2) <= Prec(o1)
    ensures ParseQuery(s, p, d) == Ok(BinOp(o2, BinOp(o1, x, y), z), m)
  {
    QueryOk(s, p, d, x, n, Chain([o1, o2], [y, z]), m);
    assert [x] + [y, z] == [x, y, z];
    LeftGrouped(x, o1, y, o2, z);
  }
}
