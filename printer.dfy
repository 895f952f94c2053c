/**
 * A printer for a fragment of the query language, and the proof that the
 * parser reads back what it prints. The fragment holds string, integer,
 * boolean and null literals, `json` and `meta` calls with no argument or
 * one string argument, and binary operators whose operands are bracketed.
 * A printed query followed by text that cannot continue a query parses, in
 * either grammar, to its own tree and leaves exactly that text.
 */
module Printer {
  import opened Wrappers
  import opened Values
  import opened Ast
  import opened Registry
  import opened Combinators
  import opened Literals
  import opened QueryParser
  import opened ParserSteps
  import opened ParserFailures
  import opened ParserTerms

  /** The two functions a printed call may name. */
  datatype Source = Json | Meta

  datatype Fragment =
    | Text(x: string)
    | Int(i: int)
    | Flag(b: bool)
    | Nothing
    | Call(fn: Source, arg: Option<string>)
    | Binary(op: Op, left: Fragment, right: Fragment)

  function Name(fn: Source): (t: string)
    ensures t == "json" || t == "meta"
  {
    match fn
    case Json => "json"
    case Meta => "meta"
  }

  /** The tree a fragment stands for. */
  function AsNode(f: Fragment): Node {
    match f
    case Text(x) => Literal(Str(x))
    case Int(i) => Literal(Int64(i))
    case Flag(b) => Literal(Bool(b))
    case Nothing => Literal(Null)
    case Call(fn, arg) => Function(Name(fn), if arg.None? then [] else [Literal(Str(arg.value))])
    case Binary(o, l, r) => BinOp(o, AsNode(l), AsNode(r))
  }

  function Bracketed(t: string): string {
    "(" + t + ")"
  }

  /** The query text of a fragment; every operand of an operator is
      bracketed, so the text needs no precedence to be read. */
  function Print(f: Fragment): (t: string)
    ensures |t| > 0 && !IsBlank(t[0]) && t[0] != '#'
  {
    match f
    case Text(x) => Quote(x)
    case Int(i) => IntToString(i)
    case Flag(b) => if b then "true" else "false"
    case Nothing => "null"
    case Call(fn, arg) => Name(fn) + Bracketed(if arg.None? then "" else Quote(arg.value))
    case Binary(o, l, r) => Bracketed(Print(l)) + " " + OpText(o) + " " + Bracketed(Print(r))
  }

  /** The text t stands in s from offset p on. */
  predicate Laid(s: string, p: nat, t: string) {
    p + |t| <= |s| && s[p..p + |t|] == t
  }

  /** No identifier character or dot at e, so no literal, name or postfix
      chain goes on. */
  predicate Follows(s: string, e: nat) {
    e <= |s| && (e == |s| || (!IsIdentChar(s[e]) && s[e] != '.'))
  }

  /** Text at e that cannot continue a query: it does not continue a term,
      and no operator comes after the spaces that follow. */
  predicate Stops(s: string, e: nat) {
    Follows(s, e) && OperatorAt(s, SkipSpaces(s, e)).None?
  }

  // ---------------------------------------------------------------------
  // The round trip

  /** Every printed fragment followed by text that stops it reads back as
      its own tree, the whole text consumed. */
  lemma {:induction false} QueryRoundTrip(s: string, p: nat, f: Fragment, d: bool)
    requires Laid(s, p, Print(f)) && Stops(s, p + |Print(f)|)
    ensures ParseQuery(s, p, d) == Ok(AsNode(f), p + |Print(f)|)
    decreases f
  {
    hide *;
    if f.Binary? {
      var o, l, r := f.op, f.left, f.right;
      var c1 := p + 1 + |Print(l)|;
      var w := |OpText(o)|;
      var b := c1 + 3 + w;
      var c2 := b + 1 + |Print(r)|;
      BinaryLayout(s, p, o, l, r);
      BinaryNode(o, l, r);
      QueryRoundTrip(s, p + 1, l, d);
      QueryRoundTrip(s, b + 1, r, d);
      BinaryJoin(s, p, d, o, w, AsNode(l), c1, AsNode(r), c2);
    } else {
      LeafQuery(s, p, f, d);
    }
  }

  lemma {:induction false} BinaryNode(o: Op, l: Fragment, r: Fragment)
    ensures AsNode(Binary(o, l, r)) == BinOp(o, AsNode(l), AsNode(r))
  {
  }

  /** The entry point: leading text that is a printed fragment is the
      payload, and what follows it is the remainder. */
  lemma {:induction false} PrintParses(f: Fragment, rest: string, d: bool)
    requires Stops(Print(f) + rest, |Print(f)|)
    ensures ParseIn(Print(f) + rest, d) == Parsed(Some(AsNode(f)), rest, None)
  {
    var s := Print(f) + rest;
    assert s[0..|Print(f)|] == Print(f);
    assert s[0] == Print(f)[0];
    SkipNothing(s, 0);
    QueryRoundTrip(s, 0, f, d);
    AcceptedWith(s, d, 0, AsNode(f), |Print(f)|);
    assert s[|Print(f)|..] == rest;
  }

  /** A printed fragment on its own parses to its tree with nothing left. */
  lemma {:induction false} PrintParsesAlone(f: Fragment, d: bool)
    ensures ParseIn(Print(f), d) == Parsed(Some(AsNode(f)), "", None)
  {
    var s := Print(f) + "";
    assert s == Print(f);
    assert SkipSpaces(s, |s|) == |s|;
    PrintParses(f, "", d);
  }

  /** How errors show null, a boolean or an integer is query text that
      reads back as that same literal. */
  lemma {:induction false} ReprReadsBack(v: Value, d: bool)
    requires v.Null? || v.Bool? || v.Int64?
    ensures ParseIn(Repr(v), d) == Parsed(Some(Literal(v)), "", None)
  {
    var f := if v.Null? then Nothing else if v.Bool? then Flag(v.b) else Int(v.i);
    assert Print(f) == Repr(v) && AsNode(f) == Literal(v);
    PrintParsesAlone(f, d);
  }

  // ---------------------------------------------------------------------
  // Operators

  /** Where the parts of `(l) op (r)` sit, and what follows each. */
  lemma {:induction false} BinaryLayout(s: string, p: nat, o: Op, l: Fragment, r: Fragment)
    requires var t := Print(Binary(o, l, r)); Laid(s, p, t) && Stops(s, p + |t|)
    ensures var c1 := p + 1 + |Print(l)|; var w := |OpText(o)|;
      var b := c1 + 3 + w; var c2 := b + 1 + |Print(r)|;
      && c2 < |s| && c2 + 1 == p + |Print(Binary(o, l, r))|
      && s[p] == '(' && !IsBlank(s[p + 1]) && s[p + 1] != '#'
      && Laid(s, p + 1, Print(l)) && s[c1] == ')' && Stops(s, c1)
      && s[c1 + 1] == ' ' && !IsBlank(s[c1 + 2]) && OperatorAt(s, c1 + 2) == Some((o, w))
      && s[c1 + 2 + w] == ' '
      && s[b] == '(' && !IsBlank(s[b + 1]) && s[b + 1] != '#'
      && Laid(s, b + 1, Print(r)) && s[c2] == ')' && Stops(s, c2)
      && (c2 + 1 == |s| || s[c2 + 1] != '.') && OperatorAt(s, SkipSpaces(s, c2 + 1)).None?
  {
    hide *;
    var pl, t, pr := Print(l), OpText(o), Print(r);
    var c1 := p + 1 + |pl|;
    var w := |t|;
    BinaryPiecesOf(s, p, o, l, r);
    StopsParts(s, p + |Print(Binary(o, l, r))|);
    BracketLaid(s, p, pl);
    BracketLaid(s, c1 + 3 + w, pr);
    LaidChar(s, c1 + 1, " ", 0);
    LaidChar(s, c1 + 2 + w, " ", 0);
    LaidChar(s, c1 + 2, t, 0);
    LaidChar(s, p + 1, pl, 0);
    LaidChar(s, c1 + 4 + w, pr, 0);
    LaidSlice(s, c1 + 2, t);
    OperatorRoundTrip(s, c1 + 2, o);
  }

  lemma {:induction false} BinaryPiecesOf(s: string, p: nat, o: Op, l: Fragment, r: Fragment)
    requires Laid(s, p, Print(Binary(o, l, r)))
    ensures var c1 := p + 1 + |Print(l)|; var w := |OpText(o)|;
      && c1 + 3 + w + |Print(r)| + 2 == p + |Print(Binary(o, l, r))|
      && Laid(s, p, Bracketed(Print(l))) && Laid(s, c1 + 1, " ") && Laid(s, c1 + 2, OpText(o))
      && Laid(s, c1 + 2 + w, " ") && Laid(s, c1 + 3 + w, Bracketed(Print(r)))
      && !IsBlank(OpText(o)[0])
  {
    hide *;
    BinaryShape(o, l, r);
    BinaryPieces(s, p, Bracketed(Print(l)), OpText(o), Bracketed(Print(r)));
  }

  /** How `(l) op (r)` is printed. */
  lemma {:induction false} BinaryShape(o: Op, l: Fragment, r: Fragment)
    ensures Print(Binary(o, l, r)) == Bracketed(Print(l)) + " " + OpText(o) + " " + Bracketed(Print(r))
    ensures !IsBlank(OpText(o)[0])
    ensures |Bracketed(Print(l))| == |Print(l)| + 2 && |Bracketed(Print(r))| == |Print(r)| + 2
  {
  }

  /** Where the pieces of `bl op br` sit. */
  lemma {:induction false} BinaryPieces(s: string, p: nat, bl: string, t: string, br: string)
    requires Laid(s, p, bl + " " + t + " " + br)
    ensures Laid(s, p, bl) && Laid(s, p + |bl|, " ") && Laid(s, p + |bl| + 1, t)
    ensures Laid(s, p + |bl| + 1 + |t|, " ") && Laid(s, p + |bl| + 2 + |t|, br)
  {
    LaidSplit(s, p, bl + " " + t + " ", br);
    LaidSplit(s, p, bl + " " + t, " ");
    LaidSplit(s, p, bl + " ", t);
    LaidSplit(s, p, bl, " ");
  }

  /** Two bracketed operands around an operator make one binary query. */
  lemma {:induction false} BinaryJoin(s: string, p: nat, d: bool, o: Op, w: nat, x: Node, c1: nat, y: Node, c2: nat)
    requires var b := c1 + 3 + w;
      && p < c1 && b < c2 < |s|
      && s[p] == '(' && !IsBlank(s[p + 1]) && s[p + 1] != '#'
      && ParseQuery(s, p + 1, d) == Ok(x, c1) && s[c1] == ')'
      && s[c1 + 1] == ' ' && !IsBlank(s[c1 + 2]) && OperatorAt(s, c1 + 2) == Some((o, w))
      && s[c1 + 2 + w] == ' '
      && s[b] == '(' && !IsBlank(s[b + 1]) && s[b + 1] != '#'
      && ParseQuery(s, b + 1, d) == Ok(y, c2) && s[c2] == ')'
      && (c2 + 1 == |s| || s[c2 + 1] != '.') && OperatorAt(s, SkipSpaces(s, c2 + 1)).None?
    ensures ParseQuery(s, p, d) == Ok(BinOp(o, x, y), c2 + 1)
  {
    hide *;
    BracketOperandAt(s, p, d, x, c1);
    RightChain(s, c1 + 1, d, o, w, y, c2);
    BinaryOperands(s, p, d, x, c1 + 1, o, y, c2 + 1);
  }

  /** ` op (y)` with nothing after it: a chain of one. */
  lemma {:induction false} RightChain(s: string, n: nat, d: bool, o: Op, w: nat, y: Node, c2: nat)
    requires var b := n + 2 + w;
      && b < c2 < |s| && s[n] == ' ' && !IsBlank(s[n + 1]) && OperatorAt(s, n + 1) == Some((o, w))
      && s[n + 1 + w] == ' '
      && s[b] == '(' && !IsBlank(s[b + 1]) && s[b + 1] != '#'
      && ParseQuery(s, b + 1, d) == Ok(y, c2) && s[c2] == ')'
      && (c2 + 1 == |s| || s[c2 + 1] != '.') && OperatorAt(s, SkipSpaces(s, c2 + 1)).None?
    ensures OpChain(s, n, d) == Ok(Chain([o], [y]), c2 + 1)
  {
    hide *;
    var b := n + 2 + w;
    OperatorGaps(s, n, o, w);
    BracketOperandAt(s, b, d, y, c2);
    ChainOfOne(s, d, n, n + 1, o, n + 1 + w, b, y, c2 + 1);
  }

  /** The single spaces around an operator are skipped. */
  lemma {:induction false} OperatorGaps(s: string, n: nat, o: Op, w: nat)
    requires n + 2 + w < |s| && s[n] == ' ' && !IsBlank(s[n + 1]) && OperatorAt(s, n + 1) == Some((o, w))
    requires s[n + 1 + w] == ' ' && s[n + 2 + w] == '('
    ensures SkipSpaces(s, n) == n + 1 && n + 1 <= n + 1 + w
    ensures SkipBlankAndComments(s, n + 1 + w) == n + 2 + w
  {
    SpacesRun(s, n, n + 1);
    SpacesRun(s, n + 1 + w, n + 2 + w);
  }

  // ---------------------------------------------------------------------
  // Brackets

  /** `(y)` not followed by a dot is an operand standing for y. */
  lemma {:induction false} BracketOperandAt(s: string, p: nat, d: bool, y: Node, c: nat)
    requires p < c < |s| && s[p] == '(' && !IsBlank(s[p + 1]) && s[p + 1] != '#'
    requires ParseQuery(s, p + 1, d) == Ok(y, c) && s[c] == ')'
    requires c + 1 == |s| || s[c + 1] != '.'
    ensures ParseOperand(s, p, d) == Ok(y, c + 1)
  {
    hide *;
    BracketTermOf(s, p, d, y, c);
    NoTails(s, p, d, y, c + 1);
  }

  lemma {:induction false} BracketTermOf(s: string, p: nat, d: bool, y: Node, c: nat)
    requires p < c < |s| && s[p] == '(' && !IsBlank(s[p + 1]) && s[p + 1] != '#' && s[c] == ')'
    requires ParseQuery(s, p + 1, d) == Ok(y, c)
    ensures ParseTerm(s, p, d) == Ok(y, c + 1)
  {
    SkipNothing(s, p + 1);
    SkipNothing(s, c);
    hide *;
    BracketTerm(s, p, d, p + 1, y, c, c);
  }

  /** Where the parts of `(u)` sit, and what the closing bracket stops. */
  lemma {:induction false} BracketLaid(s: string, q: nat, u: string)
    requires Laid(s, q, Bracketed(u))
    ensures s[q] == '(' && Laid(s, q + 1, u) && s[q + 1 + |u|] == ')' && Stops(s, q + 1 + |u|)
  {
    LaidSplit(s, q, "(" + u, ")");
    LaidSplit(s, q, "(", u);
    LaidChar(s, q, "(", 0);
    LaidChar(s, q + 1 + |u|, ")", 0);
    var c := q + 1 + |u|;
    assert SkipSpaces(s, c) == c;
  }

  // ---------------------------------------------------------------------
  // Leaves

  /** A literal or call, followed by text that stops it, is a whole query. */
  lemma {:induction false} LeafQuery(s: string, p: nat, f: Fragment, d: bool)
    requires !f.Binary? && Laid(s, p, Print(f)) && Stops(s, p + |Print(f)|)
    ensures ParseQuery(s, p, d) == Ok(AsNode(f), p + |Print(f)|)
  {
    hide *;
    StopsParts(s, p + |Print(f)|);
    LeafTerm(s, p, f, d);
    TermQuery(s, p, d, AsNode(f), p + |Print(f)|);
  }

  /** A term that nothing continues is the whole query. */
  lemma {:induction false} TermQuery(s: string, p: nat, d: bool, x: Node, n: nat)
    requires p <= |s| && ParseTerm(s, p, d) == Ok(x, n) && Stops(s, n)
    ensures ParseQuery(s, p, d) == Ok(x, n)
  {
    hide *;
    StopsParts(s, n);
    NoTails(s, p, d, x, n);
    SingleOperand(s, p, d, x, n);
  }

  lemma {:induction false} LeafTerm(s: string, p: nat, f: Fragment, d: bool)
    requires !f.Binary? && Laid(s, p, Print(f)) && Follows(s, p + |Print(f)|)
    ensures ParseTerm(s, p, d) == Ok(AsNode(f), p + |Print(f)|)
  {
    hide *;
    LeafShape(f);
    match f
    case Text(x) => TextTerm(s, p, x, d);
    case Int(i) => IntTerm(s, p, i, d);
    case Flag(b) => FlagTerm(s, p, b, d);
    case Nothing => NothingTerm(s, p, d);
    case Call(fn, arg) => CallTerm(s, p, fn, arg, d);
  }

  /** How a literal is printed and what it stands for. */
  lemma {:induction false} LeafShape(f: Fragment)
    ensures f.Text? ==> Print(f) == Quote(f.x) && AsNode(f) == Literal(Str(f.x))
    ensures f.Int? ==> Print(f) == IntToString(f.i) && AsNode(f) == Literal(Int64(f.i))
    ensures f.Flag? ==> Print(f) == (if f.b then "true" else "false") && AsNode(f) == Literal(Bool(f.b))
    ensures f.Flag? ==> |Print(f)| == if f.b then 4 else 5
    ensures f.Nothing? ==> Print(f) == "null" && AsNode(f) == Literal(Null)
  {
  }

  lemma {:induction false} TextTerm(s: string, p: nat, x: string, d: bool)
    requires Laid(s, p, Quote(x))
    ensures ParseTerm(s, p, d) == Ok(Literal(Str(x)), p + |Quote(x)|)
  {
    LaidSpells(s, p, Quote(x));
    TextScalar(s, p, x);
    ScalarTermAt(s, p, d, Str(x), p + |Quote(x)|);
  }

  lemma {:induction false} IntTerm(s: string, p: nat, i: int, d: bool)
    requires Laid(s, p, IntToString(i)) && Follows(s, p + |IntToString(i)|)
    ensures ParseTerm(s, p, d) == Ok(Literal(Int64(i)), p + |IntToString(i)|)
  {
    LaidSpells(s, p, IntToString(i));
    IntScalar(s, p, i);
    ScalarTermAt(s, p, d, Int64(i), p + |IntToString(i)|);
  }

  lemma {:induction false} FlagTerm(s: string, p: nat, b: bool, d: bool)
    requires var w := if b then "true" else "false"; Laid(s, p, w) && Follows(s, p + |w|)
    ensures ParseTerm(s, p, d) == Ok(Literal(Bool(b)), p + if b then 4 else 5)
  {
    FlagScalar(s, p, b);
    ScalarTermAt(s, p, d, Bool(b), p + if b then 4 else 5);
  }

  lemma {:induction false} NothingTerm(s: string, p: nat, d: bool)
    requires Laid(s, p, "null") && Follows(s, p + 4)
    ensures ParseTerm(s, p, d) == Ok(Literal(Null), p + 4)
  {
    LaidChar(s, p, "null", 0);
    NullTerm(s, p, d);
  }

  /** A scalar that does not start a bracket or a match block is the term. */
  lemma {:induction false} ScalarTermAt(s: string, p: nat, d: bool, v: Value, q: nat)
    requires p < |s| && s[p] != '(' && s[p] != 'm' && ParseScalar(s, p) == Ok(v, q)
    ensures ParseTerm(s, p, d) == Ok(Literal(v), q)
  {
    NotMatchKeyword(s, p);
    ScalarLiteral(s, p, d);
  }

  lemma {:induction false} TextScalar(s: string, p: nat, x: string)
    requires Spells(s, p, Quote(x))
    ensures p < |s| && s[p] == '"' && ParseScalar(s, p) == Ok(Str(x), p + |Quote(x)|)
  {
    QuoteAt(s, p, x);
    NotKeyword(s, p, "true");
    NotKeyword(s, p, "false");
    NotKeyword(s, p, "null");
  }

  lemma {:induction false} IntScalar(s: string, p: nat, i: int)
    requires Spells(s, p, IntToString(i)) && Follows(s, p + |IntToString(i)|)
    ensures p < |s| && (s[p] == '-' || IsDigit(s[p]))
    ensures ParseScalar(s, p) == Ok(Int64(i), p + |IntToString(i)|)
  {
    var t := IntToString(i);
    assert s[p + 0] == t[0];
    assert t[0] == '-' || IsDigit(t[0]) by {
      if i >= 0 { assert IsDigit(NatToString(i)[0]); }
    }
    IntegerAt(s, p, i);
    NotKeyword(s, p, "true");
    NotKeyword(s, p, "false");
    NotKeyword(s, p, "null");
  }

  lemma {:induction false} FlagScalar(s: string, p: nat, b: bool)
    requires var w := if b then "true" else "false"; Laid(s, p, w) && Follows(s, p + |w|)
    ensures p < |s| && (s[p] == 't' || s[p] == 'f')
    ensures ParseScalar(s, p) == Ok(Bool(b), p + if b then 4 else 5)
  {
    var w := if b then "true" else "false";
    LaidChar(s, p, w, 0);
    if !b {
      NotKeyword(s, p, "true");
    }
  }

  // ---------------------------------------------------------------------
  // Calls

  lemma {:induction false} CallTerm(s: string, p: nat, fn: Source, arg: Option<string>, d: bool)
    requires Laid(s, p, Print(Call(fn, arg)))
    ensures ParseTerm(s, p, d) == Ok(AsNode(Call(fn, arg)), p + |Print(Call(fn, arg))|)
  {
    hide *;
    var name := Name(fn);
    CallLayout(s, p, fn, arg);
    CallNode(fn, arg);
    if arg.None? {
      NoArgCall(s, p, name, d);
    } else {
      var x := arg.value;
      QuotedCall(s, p, name, x, p + 5 + |Quote(x)|, d);
    }
  }

  lemma {:induction false} CallNode(fn: Source, arg: Option<string>)
    ensures AsNode(Call(fn, arg)) == Function(Name(fn), if arg.None? then [] else [Literal(Str(arg.value))])
  {
  }

  /** How a call is printed. */
  lemma {:induction false} CallShape(fn: Source, arg: Option<string>)
    ensures var inner := if arg.None? then "" else Quote(arg.value);
      && Print(Call(fn, arg)) == Name(fn) + Bracketed(inner)
      && |Name(fn)| == 4 && |Bracketed(inner)| == |inner| + 2
      && (arg.Some? ==> |Quote(arg.value)| >= 2)
  {
  }

  /** Where the name, the brackets and the argument of a printed call sit. */
  lemma {:induction false} CallLayout(s: string, p: nat, fn: Source, arg: Option<string>)
    requires Laid(s, p, Print(Call(fn, arg)))
    ensures var inner := if arg.None? then "" else Quote(arg.value);
      && |Print(Call(fn, arg))| == 6 + |inner|
      && p + 6 + |inner| <= |s|
      && s[p..p + 4] == Name(fn) && s[p + 4] == '(' && s[p + 5 + |inner|] == ')'
    ensures arg.Some? ==>
      && |Quote(arg.value)| >= 2
      && s[p + 5] == '"'
      && ParseQuotedString(s, p + 5) == Ok(Str(arg.value), p + 5 + |Quote(arg.value)|)
  {
    hide *;
    var name := Name(fn);
    var inner := if arg.None? then "" else Quote(arg.value);
    CallShape(fn, arg);
    LaidSplit(s, p, name, Bracketed(inner));
    LaidSlice(s, p, name);
    BracketLaid(s, p + 4, inner);
    LaidSlice(s, p + 5, inner);
    if arg.Some? {
      LaidSpells(s, p + 5, inner);
      QuoteAt(s, p + 5, arg.value);
    }
  }

  /** `json(<quoted x>)` or `meta(<quoted x>)`, any escapes included. */
  lemma {:induction false} QuotedCall(s: string, p: nat, name: string, x: string, n: nat, d: bool)
    requires name == "json" || name == "meta"
    requires p + 5 < n < |s| && s[p..p + 4] == name && s[p + 4] == '(' && s[p + 5] == '"'
    requires ParseQuotedString(s, p + 5) == Ok(Str(x), n) && s[n] == ')'
    ensures ParseTerm(s, p, d) == Ok(Function(name, [Literal(Str(x))]), n + 1)
  {
    QuotedFunction(s, p, name, x, n, d);
    CallNameNotKeyword(s, p);
    WordTerm(s, p, d);
  }

  lemma {:induction false} QuotedFunction(s: string, p: nat, name: string, x: string, n: nat, d: bool)
    requires name == "json" || name == "meta"
    requires p + 5 < n < |s| && s[p..p + 4] == name && s[p + 4] == '(' && s[p + 5] == '"'
    requires ParseQuotedString(s, p + 5) == Ok(Str(x), n) && s[n] == ')'
    ensures ParseFunction(s, p, d) == Ok(Function(name, [Literal(Str(x))]), n + 1)
  {
    var e := p + 4;
    var args := [Literal(Str(x))];
    assert forall k | p <= k < e :: s[k] == s[p..e][k - p];
    IdentRun(s, p, e);
    QuotedArgs(s, e, x, n, d);
    assert CallAccepted(FunctionSignature(s[p..e]), args);
    AcceptedCall(s, p, e, d, args, n + 1);
  }

  lemma {:induction false} QuotedArgs(s: string, e: nat, x: string, n: nat, d: bool)
    requires e + 1 < n < |s| && s[e] == '(' && s[e + 1] == '"'
    requires ParseQuotedString(s, e + 1) == Ok(Str(x), n) && s[n] == ')'
    ensures ParseArgs(s, e, d) == Ok([Literal(Str(x))], n + 1)
  {
    QuotedArgAt(s, e + 1, x, n, d);
    SingleArg(s, e, d, Literal(Str(x)), n);
  }

  lemma {:induction false} QuotedArgAt(s: string, q: nat, x: string, n: nat, d: bool)
    requires q < |s| && s[q] == '"' && ParseQuotedString(s, q) == Ok(Str(x), n)
    ensures ParseArg(s, q, d) == Ok(Literal(Str(x)), n)
  {
    NotKeyword(s, q, "true");
    NotKeyword(s, q, "false");
  }

  // ---------------------------------------------------------------------
  // Laid text

  lemma {:induction false} LaidChar(s: string, p: nat, t: string, k: nat)
    requires Laid(s, p, t) && k < |t|
    ensures s[p + k] == t[k]
  {
    assert s[p..p + |t|][k] == s[p + k];
  }

  lemma {:induction false} LaidSplit(s: string, p: nat, a: string, b: string)
    requires Laid(s, p, a + b)
    ensures Laid(s, p, a) && Laid(s, p + |a|, b)
  {
    var whole := s[p..p + |a + b|];
    assert s[p..p + |a|] == whole[..|a|] && (a + b)[..|a|] == a;
    assert s[p + |a|..p + |a| + |b|] == whole[|a|..] && (a + b)[|a|..] == b;
  }

  lemma {:induction false} LaidSlice(s: string, p: nat, t: string)
    requires Laid(s, p, t)
    ensures p + |t| <= |s| && s[p..p + |t|] == t
  {
  }

  /** The parts of a stop. */
  lemma {:induction false} StopsParts(s: string, e: nat)
    requires Stops(s, e)
    ensures Follows(s, e) && e <= |s| && (e == |s| || s[e] != '.')
    ensures OperatorAt(s, SkipSpaces(s, e)).None?
  {
  }

  lemma {:induction false} LaidSpells(s: string, p: nat, t: string)
    requires Laid(s, p, t)
    ensures Spells(s, p, t)
  {
    forall k | 0 <= k < |t| ensures s[p + k] == t[k] {
      LaidChar(s, p, t, k);
    }
  }
}
