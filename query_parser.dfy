/**
 * The query grammar: terms (match blocks, bracketed queries, literals,
 * function calls and paths), postfix chains of methods, fields and scoped
 * queries, and flat operator chains resolved by precedence. Every call is
 * checked against the registry while parsing. Parsing stops at the end of one
 * expression and leaves the rest of the input untouched.
 *
 * The flag `d` selects the legacy grammar, in which a bare word is always a
 * function call and must be followed by its arguments.
 */
module QueryParser {
  import opened Wrappers
  import opened Values
  import opened Ast
  import opened Registry
  import opened Combinators
  import opened Literals
  import opened Arithmetic

  /** What every parser of the grammar guarantees: a success consumes at
      least one character and yields a tree whose calls all passed the
      registry checks; a failure lies at or after the start and within the
      input. */
  predicate Good(s: string, p: nat, r: Res<Node>) {
    && (r.Ok? ==> p < r.next <= |s| && Checked(r.value))
    && (r.Fail? ==> p <= r.err.at <= |s|)
  }

  predicate AllChecked(ns: seq<Node>) {
    forall i | 0 <= i < |ns| :: Checked(ns[i])
  }

  /** The operators and operands following the first operand of a query. */
  datatype Chain = Chain(ops: seq<Op>, operands: seq<Node>)

  /** A scalar result as a literal node. A helper of the parse functions
      and their proofs; it models no source behaviour of its own. */
  function Lift(r: Res<Value>): (r': Res<Node>)
    ensures r.Ok? ==> r' == Ok(Literal(r.value), r.next)
    ensures r.Fail? ==> r' == Fail(r.err)
  {
    match r
    case Ok(v, n) => Ok(Literal(v), n)
    case Fail(e) => Fail(e)
  }

  // ---------------------------------------------------------------------
  // Tokens

  /** The binary operator spelled at offset a and its width. A lone `=` is
      not an operator, so `=>` in a match case is never read as one. */
  function OperatorAt(s: string, a: nat): (r: Option<(Op, nat)>)
    ensures r.Some? ==> 1 <= r.value.1 <= 2 && a + r.value.1 <= |s|
    ensures r.Some? ==> r.value.1 == |OpText(r.value.0)|
    ensures r.Some? ==> s[a] == OpText(r.value.0)[0]
    ensures r.Some? && r.value.1 == 2 ==> s[a + 1] == OpText(r.value.0)[1]
  {
    if a >= |s| then None
    else
      var c := s[a];
      var n := if a + 1 < |s| then s[a + 1] else ' ';
      if c == '=' && n == '=' then Some((Eq, 2))
      else if c == '!' && n == '=' then Some((Neq, 2))
      else if c == '<' && n == '=' then Some((Le, 2))
      else if c == '>' && n == '=' then Some((Ge, 2))
      else if c == '&' && n == '&' then Some((And, 2))
      else if c == '|' && n == '|' then Some((Or, 2))
      else if c == '+' then Some((Add, 1))
      else if c == '-' then Some((Sub, 1))
      else if c == '*' then Some((Mul, 1))
      else if c == '/' then Some((Div, 1))
      else if c == '<' then Some((Lt, 1))
      else if c == '>' then Some((Gt, 1))
      else if c == '|' then Some((Coalesce, 1))
      else None
  }

  /** How each operator is written. */
  function OpText(op: Op): (t: string)
    ensures 1 <= |t| <= 2
  {
    match op
    case Add => "+"
    case Sub => "-"
    case Mul => "*"
    case Div => "/"
    case Eq => "=="
    case Neq => "!="
    case Lt => "<"
    case Gt => ">"
    case Le => "<="
    case Ge => ">="
    case And => "&&"
    case Or => "||"
    case Coalesce => "|"
  }

  /** Every operator written out and followed by a space (or nothing) reads
      back as itself. */
  lemma {:induction false} OperatorRoundTrip(s: string, a: nat, op: Op)
    requires a + |OpText(op)| <= |s| && s[a..a + |OpText(op)|] == OpText(op)
    requires a + |OpText(op)| == |s| || s[a + |OpText(op)|] == ' '
    ensures OperatorAt(s, a) == Some((op, |OpText(op)|))
  {
    var t := OpText(op);
    assert s[a] == t[0];
    if |t| == 2 {
      assert s[a + 1] == t[1];
    }
  }

  /** `match` followed by a space. */
  predicate MatchKeywordAt(s: string, p: nat) {
    p + 6 <= |s| && s[p..p + 5] == "match" && IsSpace(s[p + 5])
  }

  /** A `_` that is not the start of a longer identifier. */
  predicate WildcardAt(s: string, q: nat) {
    q < |s| && s[q] == '_' && (q + 1 == |s| || !IsIdentChar(s[q + 1]))
  }

  // ---------------------------------------------------------------------
  // Structure building

  /** An array whose elements are all literals is itself a literal. */
  function MakeArray(ns: seq<Node>): (n: Node)
    ensures AllChecked(ns) ==> Checked(n)
    ensures (forall i | 0 <= i < |ns| :: ns[i].Literal?) ==> n.Literal? && n.value.Array?
    ensures (exists i | 0 <= i < |ns| :: !ns[i].Literal?) ==> n == DynArray(ns)
  {
    if forall i | 0 <= i < |ns| :: ns[i].Literal? then
      Literal(Array(seq(|ns|, i requires 0 <= i < |ns| => ns[i].value)))
    else DynArray(ns)
  }

  predicate StaticEntry(e: Entry) {
    e.key.Literal? && e.key.value.Str? && e.val.Literal?
  }

  /** The fields of a run of static entries added in order to acc; a later
      key overwrites an earlier one. */
  function StaticFields(es: seq<Entry>, acc: map<string, Value>): map<string, Value>
    requires forall i | 0 <= i < |es| :: StaticEntry(es[i])
    decreases |es|
  {
    if es == [] then acc
    else
      assert StaticEntry(es[0]);
      StaticFields(es[1..], acc[es[0].key.value.s := es[0].val.value])
  }

  /** An object whose keys are literal strings and whose values are literals
      is itself a literal. */
  function MakeObject(es: seq<Entry>): (n: Node)
    ensures (forall i | 0 <= i < |es| :: EntryChecked(es[i])) ==> Checked(n)
    ensures (forall i | 0 <= i < |es| :: StaticEntry(es[i])) ==> n == Literal(Object(StaticFields(es, map[])))
    ensures (exists i | 0 <= i < |es| :: !StaticEntry(es[i])) ==> n == DynObject(es)
  {
    if forall i | 0 <= i < |es| :: StaticEntry(es[i]) then Literal(Object(StaticFields(es, map[])))
    else DynObject(es)
  }

  lemma {:induction false} AllCheckedCons(x: Node, xs: seq<Node>)
    requires Checked(x) && AllChecked(xs)
    ensures AllChecked([x] + xs)
  {
    forall i | 0 <= i < |[x] + xs| ensures Checked(([x] + xs)[i]) {
      if i > 0 { assert ([x] + xs)[i] == xs[i - 1]; }
    }
  }

  lemma {:induction false} EntriesCheckedCons(e: Entry, es: seq<Entry>)
    requires EntryChecked(e) && forall i | 0 <= i < |es| :: EntryChecked(es[i])
    ensures forall i | 0 <= i < |[e] + es| :: EntryChecked(([e] + es)[i])
  {
    forall i | 0 <= i < |[e] + es| ensures EntryChecked(([e] + es)[i]) {
      if i > 0 { assert ([e] + es)[i] == es[i - 1]; }
    }
  }

  lemma {:induction false} CasesCheckedCons(c: Case, cs: seq<Case>)
    requires CaseChecked(c) && forall i | 0 <= i < |cs| :: CaseChecked(cs[i])
    ensures forall i | 0 <= i < |[c] + cs| :: CaseChecked(([c] + cs)[i])
  {
    forall i | 0 <= i < |[c] + cs| ensures CaseChecked(([c] + cs)[i]) {
      if i > 0 { assert ([c] + cs)[i] == cs[i - 1]; }
    }
  }

  /** The operand chain resolved by precedence keeps every call checked. */
  lemma {:induction false} ChainChecked(xs: seq<Node>, ops: seq<Op>)
    requires |xs| == |ops| + 1 && AllChecked(xs)
    ensures Checked(BuildChain(xs, ops))
  {
    ResolveKeepsChain(xs, ops);
    TreeChecked(Resolve(xs, ops));
  }

  lemma {:induction false} TreeChecked(t: Tree)
    requires AllChecked(Leaves(t))
    ensures Checked(ToNode(t))
  {
    match t
    case Leaf(_) =>
      assert Leaves(t)[0] == t.node;
    case Bin(_, l, r) =>
      var nl := |Leaves(l)|;
      assert forall i | 0 <= i < nl :: Leaves(l)[i] == Leaves(t)[i];
      assert forall i | 0 <= i < |Leaves(r)| :: Leaves(r)[i] == Leaves(t)[nl + i];
      TreeChecked(l);
      TreeChecked(r);
  }

  /** Why the registry refuses a call, if it does: an unknown name first,
      then the argument count and kinds. A helper that keeps the call and
      method parsers and their proofs short; the refusals themselves are
      stated by the registry functions and ParserFailures. */
  function CallError(kind: string, name: string, sig: Option<Signature>, args: seq<Node>): (r: Option<string>)
    ensures r.None? <==> CallAccepted(sig, args)
    ensures sig.None? ==> r == Some("unrecognised " + kind + " '" + name + "'")
    ensures sig.Some? ==> r == CheckArgs(sig.value, args)
  {
    if sig.None? then Some("unrecognised " + kind + " '" + name + "'") else CheckArgs(sig.value, args)
  }

  /** A boolean, null, number or quoted string. */
  function ParseScalar(s: string, p: nat): (r: Res<Value>)
    requires p <= |s|
    ensures Sound(s, p, r)
    ensures r.Ok? ==> r.value.Bool? || r.value.Null? || IsNumeric(r.value) || r.value.Str?
  {
    OneOf(ParseBoolean(s, p), OneOf(ParseNull(s, p), OneOf(ParseNumber(s, p), ParseQuotedString(s, p))))
  }

  // ---------------------------------------------------------------------
  // Paths

  /** `.segment` continuations of a path; a segment followed by `(` is a
      method call and ends the path before its dot. */
  function PathSegments(s: string, q: nat): (r: (seq<string>, nat))
    requires q <= |s|
    ensures q <= r.1 <= |s|
    ensures r.1 > q ==> IsIdentChar(s[r.1 - 1])
    ensures r.1 == q <==> r.0 == []
    decreases |s| - q
  {
    if q < |s| && s[q] == '.' then
      var e := ScanIdent(s, q + 1);
      if e > q + 1 && !(e < |s| && s[e] == '(') then
        var rest := PathSegments(s, e);
        ([s[q + 1..e]] + rest.0, if rest.1 == e then e else rest.1)
      else ([], q)
    else ([], q)
  }

  /** `this.a.b` (relative to the context) or `a.b`. */
  function ParsePath(s: string, p: nat): (r: Res<Node>)
    requires p <= |s|
    ensures Good(s, p, r)
    ensures r.Fail? ==> r.err == Expected(p, false, ["path"])
  {
    var e := ScanIdent(s, p);
    if e == p then Fail(Expected(p, false, ["path"]))
    else
      var root := s[p..e];
      var (segs, end) := PathSegments(s, e);
      Ok(Path(if root == "this" then segs else [root] + segs), end)
  }

  function ParseField(s: string, q: nat, target: Node): (r: Res<Node>)
    requires q < |s| && s[q] == '.' && Checked(target)
    ensures Good(s, q, r)
    ensures r.Fail? ==> !Fatal(r.err)
  {
    var n := q + 1;
    var e := ScanIdent(s, n);
    if e == n then Fail(Expected(n, false, ["field"]))
    else Ok(Get(target, s[n..e]), e)
  }

  // ---------------------------------------------------------------------
  // The grammar

  function ParseQuery(s: string, p: nat, d: bool): (r: Res<Node>)
    requires p <= |s|
    ensures Good(s, p, r)
    decreases |s| - p, 6
  {
    var first := ParseOperand(s, p, d);
    if first.Fail? then first
    else
      var chain := OpChain(s, first.next, d);
      if chain.Fail? then Fail(chain.err)
      else
        var xs := [first.value] + chain.value.operands;
        AllCheckedCons(first.value, chain.value.operands);
        ChainChecked(xs, chain.value.ops);
        Ok(BuildChain(xs, chain.value.ops), chain.next)
  }

  /** Operators and their right operands. Only spaces and tabs may come
      before an operator; after it, line breaks and comments may too. */
  function OpChain(s: string, q: nat, d: bool): (r: Res<Chain>)
    requires q <= |s|
    ensures r.Ok? ==> q <= r.next <= |s|
    ensures r.Ok? ==> |r.value.ops| == |r.value.operands| && AllChecked(r.value.operands)
    ensures r.Ok? && r.next == q ==> r.value == Chain([], [])
    ensures r.Fail? ==> q <= r.err.at <= |s|
    decreases |s| - q, 1
  {
    var a := SkipSpaces(s, q);
    var op := OperatorAt(s, a);
    if op.None? then Ok(Chain([], []), q)
    else OperandChain(s, op.value.0, SkipBlankAndComments(s, a + op.value.1), d)
  }

  /** The operand after an operator and the rest of the chain. */
  function OperandChain(s: string, op: Op, b: nat, d: bool): (r: Res<Chain>)
    requires b <= |s|
    ensures r.Ok? ==> b < r.next <= |s|
    ensures r.Ok? ==> |r.value.ops| == |r.value.operands| && AllChecked(r.value.operands)
    ensures r.Fail? ==> b <= r.err.at <= |s|
    decreases |s| - b, 6
  {
    var x := ParseOperand(s, b, d);
    if x.Fail? then Fail(x.err)
    else
      var rest := OpChain(s, x.next, d);
      if rest.Fail? then rest
      else
        var operands := [x.value] + rest.value.operands;
        AllCheckedCons(x.value, rest.value.operands);
        Ok(Chain([op] + rest.value.ops, operands), rest.next)
  }

  /** A term and its postfix chain; a term missing at the start is reported
      as a missing query. */
  function ParseOperand(s: string, p: nat, d: bool): (r: Res<Node>)
    requires p <= |s|
    ensures Good(s, p, r)
    decreases |s| - p, 5
  {
    var t := Expect(ParseTerm(s, p, d), p, "query");
    if t.Fail? then t else Tails(s, t.next, d, t.value)
  }

  function ParseTerm(s: string, p: nat, d: bool): (r: Res<Node>)
    requires p <= |s|
    ensures Good(s, p, r)
    decreases |s| - p, 4
  {
    var call := ParseFunction(s, p, d);
    var word := if d then call else OneOf(call, ParsePath(s, p));
    OneOf(ParseMatch(s, p, d), OneOf(ParseBracket(s, p, d), OneOf(ParseLiteral(s, p, d), word)))
  }

  /** `.(query)`, `.method(args)` or `.field`, repeatedly. A tail that does
      not match leaves its dot unconsumed; one that breaks is fatal. */
  function Tails(s: string, q: nat, d: bool, target: Node): (r: Res<Node>)
    requires q <= |s| && Checked(target)
    ensures r.Ok? ==> q <= r.next <= |s| && Checked(r.value)
    ensures r.Ok? && r.next == q ==> r.value == target
    ensures r.Fail? ==> q <= r.err.at <= |s| && Fatal(r.err)
    decreases |s| - q, 2
  {
    if !(q < |s| && s[q] == '.') then Ok(target, q)
    else
      var t := OneOf(ParseScoped(s, q, d, target), OneOf(ParseMethod(s, q, d, target), ParseField(s, q, target)));
      if t.Ok? then Tails(s, t.next, d, t.value)
      else if Fatal(t.err) then Fail(t.err)
      else Ok(target, q)
  }

  function ParseScoped(s: string, q: nat, d: bool, target: Node): (r: Res<Node>)
    requires q < |s| && s[q] == '.' && Checked(target)
    ensures Good(s, q, r)
    decreases |s| - q, 1
  {
    if !(q + 1 < |s| && s[q + 1] == '(') then Fail(Expected(q + 1, false, ["("]))
    else
      var body := ParseQuery(s, SkipBlankAndComments(s, q + 2), d);
      if body.Fail? then Fail(Required(body.err))
      else
        var c := SkipBlankAndComments(s, body.next);
        if c < |s| && s[c] == ')' then Ok(Scoped(target, body.value), c + 1)
        else Fail(Expected(c, true, ["closing bracket"]))
  }

  function ParseMethod(s: string, q: nat, d: bool, target: Node): (r: Res<Node>)
    requires q < |s| && s[q] == '.' && Checked(target)
    ensures Good(s, q, r)
    decreases |s| - q, 1
  {
    var n := q + 1;
    var e := ScanIdent(s, n);
    if e == n then Fail(Expected(n, false, ["method"]))
    else
      var name := s[n..e];
      var args := ParseArgs(s, e, d);
      if args.Fail? then Fail(args.err)
      else
        match CallError("method", name, MethodSignature(name), args.value)
        case Some(msg) => Fail(Custom(n, msg))
        case None => Ok(Method(target, name, args.value), args.next)
  }

  function ParseFunction(s: string, p: nat, d: bool): (r: Res<Node>)
    requires p <= |s|
    ensures Good(s, p, r)
    decreases |s| - p, 3
  {
    var e := ScanIdent(s, p);
    if e == p then Fail(Expected(p, false, ["function"]))
    else
      var name := s[p..e];
      var args := ParseArgs(s, e, d);
      if args.Fail? then Fail(args.err)
      else
        match CallError("function", name, FunctionSignature(name), args.value)
        case Some(msg) => Fail(Custom(p, msg))
        case None => Ok(Function(name, args.value), args.next)
  }

  /** `(` arguments `)`; anything else where the list should open is a
      recoverable failure, and everything after the `(` is required. */
  function ParseArgs(s: string, q: nat, d: bool): (r: Res<seq<Node>>)
    requires q <= |s|
    ensures r.Ok? ==> q < r.next <= |s| && AllChecked(r.value)
    ensures r.Fail? ==> q <= r.err.at <= |s|
    ensures r.Fail? && !Fatal(r.err) ==> r.err == Expected(q, false, ["function arguments"])
    decreases |s| - q, 1
  {
    if !(q < |s| && s[q] == '(') then Fail(Expected(q, false, ["function arguments"]))
    else
      var b := SkipBlankAndComments(s, q + 1);
      if b < |s| && s[b] == ')' then Ok([], b + 1) else ArgList(s, b, d)
  }

  function ArgList(s: string, q: nat, d: bool): (r: Res<seq<Node>>)
    requires q <= |s|
    ensures r.Ok? ==> q < r.next <= |s| && AllChecked(r.value)
    ensures r.Fail? ==> q <= r.err.at <= |s| && Fatal(r.err)
    decreases |s| - q, 8
  {
    var a := ParseArg(s, q, d);
    if a.Fail? then Fail(Required(a.err)) else ArgsAfter(s, a.next, d, a.value)
  }

  /** What follows an argument: `)` ends the list, `,` requires another. */
  function ArgsAfter(s: string, q: nat, d: bool, arg: Node): (r: Res<seq<Node>>)
    requires q <= |s| && Checked(arg)
    ensures r.Ok? ==> q < r.next <= |s| && AllChecked(r.value)
    ensures r.Ok? ==> |r.value| > 0 && r.value[0] == arg
    ensures r.Fail? ==> q <= r.err.at <= |s| && Fatal(r.err)
    decreases |s| - q, 0
  {
    var c := SkipBlankAndComments(s, q);
    if c < |s| && s[c] == ')' then
      AllCheckedCons(arg, []);
      Ok([arg] + [], c + 1)
    else if c < |s| && s[c] == ',' then
      var rest := ArgList(s, SkipBlankAndComments(s, c + 1), d);
      if rest.Fail? then rest
      else
        AllCheckedCons(arg, rest.value);
        Ok([arg] + rest.value, rest.next)
    else Fail(Expected(c, true, [",", ")"]))
  }

  /** An argument: a boolean, number or string literal, or any query. */
  function ParseArg(s: string, q: nat, d: bool): (r: Res<Node>)
    requires q <= |s|
    ensures Good(s, q, r)
    decreases |s| - q, 7
  {
    OneOf(Lift(ParseBoolean(s, q)), OneOf(Lift(ParseNumber(s, q)), OneOf(Lift(ParseQuotedString(s, q)), ParseQuery(s, q, d))))
  }

  /** `(` query `)`. */
  function ParseBracket(s: string, p: nat, d: bool): (r: Res<Node>)
    requires p <= |s|
    ensures Good(s, p, r)
    decreases |s| - p, 3
  {
    if !(p < |s| && s[p] == '(') then Fail(Expected(p, false, ["bracketed query"]))
    else
      var inner := ParseQuery(s, SkipBlankAndComments(s, p + 1), d);
      if inner.Fail? then inner
      else
        var b := SkipBlankAndComments(s, inner.next);
        if b < |s| && s[b] == ')' then Ok(inner.value, b + 1)
        else Fail(Expected(b, true, ["closing bracket"]))
  }

  /** `match target { pattern => result ... }`. */
  function ParseMatch(s: string, p: nat, d: bool): (r: Res<Node>)
    requires p <= |s|
    ensures Good(s, p, r)
    decreases |s| - p, 3
  {
    if !MatchKeywordAt(s, p) then Fail(Expected(p, false, ["match"]))
    else
      var target := ParseQuery(s, SkipSpaces(s, p + 6), d);
      if target.Fail? then target
      else MatchBlock(s, target.next, d, target.value)
  }

  /** What follows a match target: `{` and the cases. */
  function MatchBlock(s: string, n: nat, d: bool, target: Node): (r: Res<Node>)
    requires n <= |s| && Checked(target)
    ensures r.Ok? ==> n < r.next <= |s| && Checked(r.value) && r.value.Match? && r.value.target == target
    ensures r.Fail? ==> n <= r.err.at <= |s|
    decreases |s| - n, 0
  {
    var b := SkipBlankAndComments(s, n);
    if b < |s| && s[b] == '{' then
      var cases := Cases(s, SkipBlankAndComments(s, b + 1), d);
      if cases.Fail? then Fail(cases.err)
      else Ok(Match(target, cases.value), cases.next)
    else Fail(Expected(b, true, ["{"]))
  }

  /** Cases up to the closing `}`. A case that does not start where one is
      expected is a required failure; the `}` is named as the alternative. */
  function Cases(s: string, q: nat, d: bool): (r: Res<seq<Case>>)
    requires q <= |s|
    ensures r.Ok? ==> q < r.next <= |s|
    ensures r.Ok? ==> forall i | 0 <= i < |r.value| :: CaseChecked(r.value[i])
    ensures r.Fail? ==> q <= r.err.at <= |s|
    decreases |s| - q, 9
  {
    if q < |s| && s[q] == '}' then Ok([], q + 1)
    else
      var c := ParseCase(s, q, d);
      if c.Fail? then Fail(if Fatal(c.err) then c.err else Required(Deeper(c.err, Expected(q, false, ["}"]))))
      else CasesAfter(s, c.next, d, c.value)
  }

  /** What follows a case: blanks, comments and an optional comma, then the
      next case or the closing `}`. */
  function CasesAfter(s: string, q: nat, d: bool, first: Case): (r: Res<seq<Case>>)
    requires q <= |s| && CaseChecked(first)
    ensures r.Ok? ==> q < r.next <= |s|
    ensures r.Ok? ==> forall i | 0 <= i < |r.value| :: CaseChecked(r.value[i])
    ensures r.Ok? ==> |r.value| > 0 && r.value[0] == first
    ensures r.Fail? ==> q <= r.err.at <= |s|
    decreases |s| - q, 10
  {
    var a := SkipBlankAndComments(s, q);
    var b := if a < |s| && s[a] == ',' then SkipBlankAndComments(s, a + 1) else a;
    var rest := Cases(s, b, d);
    if rest.Fail? then rest
    else
      CasesCheckedCons(first, rest.value);
      Ok([first] + rest.value, rest.next)
  }

  /** `_ => result` or `query => result`. */
  function ParseCase(s: string, q: nat, d: bool): (r: Res<Case>)
    requires q <= |s|
    ensures r.Ok? ==> q < r.next <= |s| && CaseChecked(r.value)
    ensures r.Fail? ==> q <= r.err.at <= |s|
    decreases |s| - q, 8
  {
    var pat := ParsePattern(s, q, d);
    if pat.Fail? then Fail(pat.err) else CaseResult(s, pat.next, d, pat.value)
  }

  /** A `_` that is not the start of a name, or a query. */
  function ParsePattern(s: string, q: nat, d: bool): (r: Res<Pattern>)
    requires q <= |s|
    ensures r.Ok? ==> q < r.next <= |s| && (r.value.Test? ==> Checked(r.value.node))
    ensures r.Fail? ==> q <= r.err.at <= |s|
    decreases |s| - q, 7
  {
    if WildcardAt(s, q) then Ok(Wildcard, q + 1)
    else
      var t := ParseQuery(s, q, d);
      if t.Fail? then Fail(t.err) else Ok(Test(t.value), t.next)
  }

  /** `=>` and the result after a pattern; only spaces and tabs may come
      before the arrow. */
  function CaseResult(s: string, q: nat, d: bool, pat: Pattern): (r: Res<Case>)
    requires q <= |s| && (pat.Test? ==> Checked(pat.node))
    ensures r.Ok? ==> q < r.next <= |s| && CaseChecked(r.value)
    ensures r.Fail? ==> q <= r.err.at <= |s|
    decreases |s| - q, 7
  {
    var a := SkipSpaces(s, q);
    if a + 1 < |s| && s[a] == '=' && s[a + 1] == '>' then
      var res := ParseQuery(s, SkipBlankAndComments(s, a + 2), d);
      if res.Fail? then Fail(Required(res.err))
      else Ok(Case(pat, res.value), res.next)
    else Fail(Expected(a, true, ["=>"]))
  }

  // ---------------------------------------------------------------------
  // Literals and structures

  /** A scalar, or an array or object whose members may be bracketed
      queries. */
  function ParseLiteral(s: string, p: nat, d: bool): (r: Res<Node>)
    requires p <= |s|
    ensures Good(s, p, r)
    decreases |s| - p, 3
  {
    OneOf(Lift(ParseScalar(s, p)), OneOf(ParseArray(s, p, d), ParseObject(s, p, d)))
  }

  /** An array element or object key or value: a literal or a bracketed
      query. */
  function ParseElement(s: string, q: nat, d: bool): (r: Res<Node>)
    requires q <= |s|
    ensures Good(s, q, r)
    decreases |s| - q, 4
  {
    OneOf(ParseLiteral(s, q, d), ParseBracket(s, q, d))
  }

  function ParseArray(s: string, p: nat, d: bool): (r: Res<Node>)
    requires p <= |s|
    ensures Good(s, p, r)
    decreases |s| - p, 2
  {
    if !(p < |s| && s[p] == '[') then Fail(Expected(p, false, ["array"]))
    else
      var q := SkipBlankAndComments(s, p + 1);
      if q < |s| && s[q] == ']' then Ok(MakeArray([]), q + 1)
      else
        var es := Elements(s, q, d);
        if es.Fail? then Fail(es.err) else Ok(MakeArray(es.value), es.next)
  }

  /** Elements up to the closing `]`; after `[` or `,` an element is
      required. */
  function Elements(s: string, q: nat, d: bool): (r: Res<seq<Node>>)
    requires q <= |s|
    ensures r.Ok? ==> q < r.next <= |s| && AllChecked(r.value)
    ensures r.Fail? ==> q <= r.err.at <= |s|
    decreases |s| - q, 5
  {
    var e := ParseElement(s, q, d);
    if e.Fail? then Fail(Required(e.err)) else ElementsAfter(s, e.next, d, e.value)
  }

  /** What follows an element: `]` ends the array, `,` requires another. */
  function ElementsAfter(s: string, q: nat, d: bool, x: Node): (r: Res<seq<Node>>)
    requires q <= |s| && Checked(x)
    ensures r.Ok? ==> q < r.next <= |s| && AllChecked(r.value)
    ensures r.Ok? ==> |r.value| > 0 && r.value[0] == x
    ensures r.Fail? ==> q <= r.err.at <= |s|
    decreases |s| - q, 0
  {
    var a := SkipBlankAndComments(s, q);
    if a < |s| && s[a] == ']' then
      AllCheckedCons(x, []);
      Ok([x] + [], a + 1)
    else if a < |s| && s[a] == ',' then
      var rest := Elements(s, SkipBlankAndComments(s, a + 1), d);
      if rest.Fail? then rest
      else
        AllCheckedCons(x, rest.value);
        Ok([x] + rest.value, rest.next)
    else Fail(Expected(a, true, [",", "]"]))
  }

  function ParseObject(s: string, p: nat, d: bool): (r: Res<Node>)
    requires p <= |s|
    ensures Good(s, p, r)
    decreases |s| - p, 2
  {
    if !(p < |s| && s[p] == '{') then Fail(Expected(p, false, ["object"]))
    else
      var q := SkipBlankAndComments(s, p + 1);
      if q < |s| && s[q] == '}' then Ok(MakeObject([]), q + 1)
      else
        var es := Entries(s, q, d, p);
        if es.Fail? then Fail(es.err) else Ok(MakeObject(es.value), es.next)
  }

  /** `key: value`. A literal key that is not a string is rejected at the
      object's opening brace. */
  function ParseEntry(s: string, q: nat, d: bool, brace: nat): (r: Res<Entry>)
    requires brace < q <= |s|
    ensures r.Ok? ==> q < r.next <= |s| && EntryChecked(r.value)
    ensures r.Fail? ==> brace <= r.err.at <= |s|
    decreases |s| - q, 5
  {
    var k := ParseElement(s, q, d);
    if k.Fail? then Fail(Required(k.err))
    else if k.value.Literal? && !k.value.value.Str? then
      Fail(Custom(brace, "object keys must be strings, received: " + KindName(k.value.value)))
    else EntryValue(s, k.next, d, brace, k.value)
  }

  /** What follows an accepted key: `:` and the value. */
  function EntryValue(s: string, n: nat, d: bool, brace: nat, k: Node): (r: Res<Entry>)
    requires brace < n <= |s| && Checked(k)
    ensures r.Ok? ==> n < r.next <= |s| && EntryChecked(r.value) && r.value.key == k
    ensures r.Fail? ==> brace <= r.err.at <= |s|
    decreases |s| - n, 3
  {
    var a := SkipBlankAndComments(s, n);
    if !(a < |s| && s[a] == ':') then Fail(Expected(a, true, [":"]))
    else
      var v := ParseElement(s, SkipBlankAndComments(s, a + 1), d);
      if v.Fail? then Fail(Required(v.err))
      else Ok(Entry(k, v.value), v.next)
  }

  /** Entries up to the closing `}`. */
  function Entries(s: string, q: nat, d: bool, brace: nat): (r: Res<seq<Entry>>)
    requires brace < q <= |s|
    ensures r.Ok? ==> q < r.next <= |s|
    ensures r.Ok? ==> forall i | 0 <= i < |r.value| :: EntryChecked(r.value[i])
    ensures r.Fail? ==> brace <= r.err.at <= |s|
    decreases |s| - q, 6
  {
    var e := ParseEntry(s, q, d, brace);
    if e.Fail? then Fail(e.err) else EntriesAfter(s, e.next, d, brace, e.value)
  }

  /** What follows an entry: `}` ends the object, `,` requires another. */
  function EntriesAfter(s: string, q: nat, d: bool, brace: nat, x: Entry): (r: Res<seq<Entry>>)
    requires brace < q <= |s| && EntryChecked(x)
    ensures r.Ok? ==> q < r.next <= |s|
    ensures r.Ok? ==> forall i | 0 <= i < |r.value| :: EntryChecked(r.value[i])
    ensures r.Ok? ==> |r.value| > 0 && r.value[0] == x
    ensures r.Fail? ==> brace <= r.err.at <= |s|
    decreases |s| - q, 0
  {
    var c := SkipBlankAndComments(s, q);
    if c < |s| && s[c] == '}' then
      EntriesCheckedCons(x, []);
      Ok([x] + [], c + 1)
    else if c < |s| && s[c] == ',' then
      var rest := Entries(s, SkipBlankAndComments(s, c + 1), d, brace);
      if rest.Fail? then rest
      else
        EntriesCheckedCons(x, rest.value);
        Ok([x] + rest.value, rest.next)
    else Fail(Expected(c, true, [",", "}"]))
  }

  // ---------------------------------------------------------------------
  // Entry points

  /** The payload, the unconsumed remainder and the error of one parse. */
  datatype Parsed = Parsed(payload: Option<Node>, remaining: string, err: Option<ParseError>)

  /** Leading blanks and comments are skipped, then one query is read. */
  function ParseIn(s: string, deprecated: bool): (r: Parsed)
    ensures r.err.None? <==> r.payload.Some?
    ensures r.payload.Some? ==> Checked(r.payload.value)
    ensures r.payload.Some? ==>
              var n := |s| - |r.remaining|;
              0 < n <= |s| && r.remaining == s[n..]
    ensures r.err.Some? ==> r.remaining == s && r.err.value.at <= |s|
  {
    var q := SkipBlankAndComments(s, 0);
    match ParseQuery(s, q, deprecated)
    case Ok(n, next) => Parsed(Some(n), s[next..], None)
    case Fail(e) => Parsed(None, s, Some(e))
  }

  /** The entry point of the current grammar. */
  function Parse(s: string): (r: Parsed)
    ensures r.err.None? <==> r.payload.Some?
    ensures r.payload.Some? ==> Checked(r.payload.value) && |r.remaining| < |s|
    ensures r.payload.Some? ==> r.remaining == s[|s| - |r.remaining|..]
    ensures r.err.Some? ==> r.remaining == s
  {
    ParseIn(s, false)
  }

  /** The entry point of the legacy grammar. */
  function ParseDeprecated(s: string): (r: Parsed)
    ensures r.err.None? <==> r.payload.Some?
    ensures r.payload.Some? ==> Checked(r.payload.value) && |r.remaining| < |s|
    ensures r.payload.Some? ==> r.remaining == s[|s| - |r.remaining|..]
    ensures r.err.Some? ==> r.remaining == s
  {
    ParseIn(s, true)
  }

  datatype Outcome = Accepted(query: Node) | Rejected(err: ParseError)

  /** A parse in either grammar, reduced to its query or its error. */
  function TryParse(s: string, deprecated: bool): (r: Outcome)
    ensures r.Accepted? <==> ParseIn(s, deprecated).err.None?
    ensures r.Rejected? ==> Some(r.err) == ParseIn(s, deprecated).err
    ensures r.Accepted? ==> Some(r.query) == ParseIn(s, deprecated).payload
    ensures r.Accepted? ==> Checked(r.query)
    ensures r.Rejected? ==> r.err.at <= |s|
  {
    var res := ParseIn(s, deprecated);
    if res.err.Some? then Rejected(res.err.value) else Accepted(res.payload.value)
  }
}
