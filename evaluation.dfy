/**
 * Evaluation of a parsed query against a context: the index of the current
 * message, the batch it belongs to and, inside a method chain, scoped query
 * or match, the value the query is relative to. Every node evaluates to a
 * value or to an error message. Dynamic arrays pass an element's error on
 * unchanged; dynamic objects name the key whose value failed.
 */
module Evaluation {
  import opened Wrappers
  import opened Values
  import opened Ast

  /** A message of the batch: its structured content, if it has any, and its
      metadata. */
  datatype Message = Message(content: Option<Value>, metadata: map<string, string>)

  /** What one evaluation sees. */
  datatype Ctx = Ctx(index: int, batch: seq<Message>, value: Option<Value>)

  datatype Result<+T> = Success(value: T) | Failure(error: string)

  // ---------------------------------------------------------------------
  // Paths

  /** One field step: a missing field and a step into null give null; a
      step into anything that is not an object is an error. */
  function Field(v: Value, f: string): (r: Result<Value>)
    ensures v.Object? ==> r == Success(if f in v.fields then v.fields[f] else Null)
    ensures v.Null? ==> r == Success(Null)
    ensures !v.Object? && !v.Null? ==> r == Failure(ExpectedValueError("object", v))
  {
    match v
    case Object(fields) => Success(if f in fields then fields[f] else Null)
    case Null => Success(Null)
    case _ => Failure(ExpectedValueError("object", v))
  }

  /** Follows the segments left to right; the first failing step decides. */
  function Walk(v: Value, segs: seq<string>): Result<Value>
    decreases |segs|
  {
    if segs == [] then Success(v)
    else
      match Field(v, segs[0])
      case Failure(e) => Failure(e)
      case Success(w) => Walk(w, segs[1..])
  }

  /** The segments of a dotted path argument such as `"a.b"`. */
  function SplitDots(p: string): (r: seq<string>)
    ensures |r| > 0
    decreases |p|
  {
    if p == [] then [""]
    else
      var rest := SplitDots(p[1..]);
      if p[0] == '.' then [""] + rest else [[p[0]] + rest[0]] + rest[1..]
  }

  /** The message the context points at. */
  function CurrentMessage(ctx: Ctx, fn: string): Result<Message> {
    if 0 <= ctx.index < |ctx.batch| then Success(ctx.batch[ctx.index])
    else Failure(fn + ": message index " + IntToString(ctx.index) + " is out of range")
  }

  /** What a path is relative to: the context value, else the message. */
  function Root(ctx: Ctx): Result<Value> {
    if ctx.value.Some? then Success(ctx.value.value)
    else
      match CurrentMessage(ctx, "path")
      case Failure(e) => Failure(e)
      case Success(m) => if m.content.Some? then Success(m.content.value) else Failure("path: message is not structured")
  }

  // ---------------------------------------------------------------------
  // Operators

  /** Arithmetic on two numbers yields a Number; only a division by zero
      fails. */
  function Arith(op: Op, a: real, b: real): (r: Result<Value>)
    requires op in {Add, Sub, Mul, Div}
    ensures r.Failure? <==> op == Div && b == 0.0
    ensures r.Success? ==> r.value.Number?
  {
    match op
    case Add => Success(Number(a + b))
    case Sub => Success(Number(a - b))
    case Mul => Success(Number(a * b))
    case Div => if b == 0.0 then Failure("attempted to divide by zero") else Success(Number(a / b))
  }

  /** Applies an operator to two evaluated operands. Arithmetic is carried
      out on the numbers as reals and yields a Number; the first operand that
      is not a number is named in the error. */
  function Apply(op: Op, a: Value, b: Value): Result<Value>
    requires op != Coalesce
  {
    match op
    case Add | Sub | Mul | Div =>
      if !IsNumeric(a) then Failure(ExpectedValueError("number", a))
      else if !IsNumeric(b) then Failure(ExpectedValueError("number", b))
      else Arith(op, AsReal(a), AsReal(b))
    case Eq => Success(Bool(ValueEq(a, b)))
    case Neq => Success(Bool(!ValueEq(a, b)))
    case Lt | Gt | Le | Ge =>
      if IsNumeric(a) && IsNumeric(b) then Success(Bool(CompareReal(op, AsReal(a), AsReal(b))))
      else if a.Str? && b.Str? then Success(Bool(CompareStr(op, a.s, b.s)))
      else Failure("cannot compare types " + KindName(a) + " and " + KindName(b))
    case And | Or =>
      if !a.Bool? then Failure(ExpectedValueError("boolean", a))
      else if !b.Bool? then Failure(ExpectedValueError("boolean", b))
      else Success(Bool(if op == And then a.b && b.b else a.b || b.b))
  }

  function CompareReal(op: Op, a: real, b: real): bool {
    match op
    case Lt => a < b
    case Gt => a > b
    case Le => a <= b
    case _ => a >= b
  }

  function CompareStr(op: Op, a: string, b: string): bool {
    match op
    case Lt => StrLess(a, b)
    case Gt => StrLess(b, a)
    case Le => a == b || StrLess(a, b)
    case _ => a == b || StrLess(b, a)
  }

  // ---------------------------------------------------------------------
  // Functions and methods of the registry

  /** `json([path])` reads the current message's content, `meta([key])` its
      metadata (a missing key is null). Arguments arrive evaluated. */
  function CallFunction(name: string, args: seq<Value>, ctx: Ctx): Result<Value> {
    match CurrentMessage(ctx, name)
    case Failure(e) => Failure(e)
    case Success(m) =>
      if name == "json" then
        if m.content.None? then Failure("json: message is not structured")
        else if args == [] then Success(m.content.value)
        else if !args[0].Str? then Failure(ExpectedValueError("string", args[0]))
        else Walk(m.content.value, SplitDots(args[0].s))
      else if name == "meta" then
        if args == [] then Success(Object(map k | k in m.metadata :: Str(m.metadata[k])))
        else if !args[0].Str? then Failure(ExpectedValueError("string", args[0]))
        else if args[0].s in m.metadata then Success(Str(m.metadata[args[0].s]))
        else Success(Null)
      else Failure("unrecognised function '" + name + "'")
  }

  // ---------------------------------------------------------------------
  // Evaluation

  function Exec(n: Node, ctx: Ctx): Result<Value>
    decreases n, 2
  {
    match n
    case Literal(v) => Success(v)
    case DynArray(es) =>
      var r := ExecList(es, ctx);
      if r.Failure? then Failure(r.error) else Success(Array(r.value))
    case DynObject(es) =>
      var r := ExecEntries(es, ctx, map[]);
      if r.Failure? then Failure(r.error) else Success(Object(r.value))
    case Function(name, args) =>
      var r := ExecList(args, ctx);
      if r.Failure? then Failure(r.error) else CallFunction(name, r.value, ctx)
    case Method(t, name, args) => ExecMethod(t, name, args, ctx)
    case Path(segs) =>
      var r := Root(ctx);
      if r.Failure? then Failure(r.error) else Walk(r.value, segs)
    case Get(t, f) =>
      var r := Exec(t, ctx);
      if r.Failure? then r else Field(r.value, f)
    case Scoped(t, body) =>
      var r := Exec(t, ctx);
      if r.Failure? then r else Exec(body, ctx.(value := Some(r.value)))
    case BinOp(op, l, r) =>
      var a := Exec(l, ctx);
      if op == Coalesce then
        if a.Success? then a else Exec(r, ctx)
      else if a.Failure? then a
      else
        var b := Exec(r, ctx);
        if b.Failure? then b else Apply(op, a.value, b.value)
    case Match(t, cases) =>
      var r := Exec(t, ctx);
      if r.Failure? then r else ExecCases(cases, r.value, ctx.(value := Some(r.value)))
  }

  /** `from(i)` evaluates the target against message i, `from_all()` against
      every message of the batch, `uppercase()` upper-cases a string and
      `map(q)` evaluates q relative to the target's value. */
  function ExecMethod(t: Node, name: string, args: seq<Node>, ctx: Ctx): Result<Value>
    decreases Method(t, name, args), 1
  {
    if name == "map" && |args| == 1 then
      match Exec(t, ctx)
      case Failure(e) => Failure(e)
      case Success(v) => Exec(args[0], ctx.(value := Some(v)))
    else if name == "from" && |args| == 1 then
      match Exec(args[0], ctx)
      case Failure(e) => Failure(e)
      case Success(i) =>
        if !i.Int64? then Failure(ExpectedValueError("int", i))
        else Exec(t, ctx.(index := i.i, value := None))
    else if name == "from_all" && args == [] then
      match FromAll(t, ctx, 0)
      case Failure(e) => Failure(e)
      case Success(vs) => Success(Array(vs))
    else if name == "uppercase" && args == [] then
      match Exec(t, ctx)
      case Failure(e) => Failure(e)
      case Success(v) => if v.Str? then Success(Str(Upper(v.s))) else Failure(ExpectedValueError("string", v))
    else Failure("unrecognised method '" + name + "'")
  }

  /** The target evaluated against messages i, i+1, ... of the batch. */
  function FromAll(t: Node, ctx: Ctx, i: nat): Result<seq<Value>>
    requires i <= |ctx.batch|
    decreases t, 3, |ctx.batch| - i
  {
    if i == |ctx.batch| then Success([])
    else
      match Exec(t, ctx.(index := i, value := None))
      case Failure(e) => Failure(e)
      case Success(v) =>
        match FromAll(t, ctx, i + 1)
        case Failure(e) => Failure(e)
        case Success(vs) => Success([v] + vs)
  }

  /** Elements in order; the first error is passed on unchanged. */
  function ExecList(es: seq<Node>, ctx: Ctx): (r: Result<seq<Value>>)
    ensures r.Success? ==> |r.value| == |es|
    ensures r.Success? ==> forall i | 0 <= i < |es| :: Exec(es[i], ctx) == Success(r.value[i])
    ensures r.Failure? ==> exists i | 0 <= i < |es| :: FirstFailure(es, ctx, i) && Exec(es[i], ctx) == Failure(r.error)
    decreases es, 2
  {
    if es == [] then Success([])
    else
      match Exec(es[0], ctx)
      case Failure(e) =>
        assert FirstFailure(es, ctx, 0);
        Failure(e)
      case Success(v) =>
        match ExecList(es[1..], ctx)
        case Failure(e) =>
          ghost var i :| 0 <= i < |es[1..]| && FirstFailure(es[1..], ctx, i) && Exec(es[1..][i], ctx) == Failure(e);
          assert FirstFailure(es, ctx, i + 1) by {
            forall j | 0 <= j < i + 1 ensures Exec(es[j], ctx).Success? {
              if j > 0 { assert es[j] == es[1..][j - 1]; }
            }
          }
          Failure(e)
        case Success(vs) =>
          assert forall i | 1 <= i < |es| :: es[i] == es[1..][i - 1];
          Success([v] + vs)
  }

  /** Element i fails and every element before it succeeds. */
  predicate FirstFailure(es: seq<Node>, ctx: Ctx, i: nat)
    requires i < |es|
    decreases es, 1
  {
    Exec(es[i], ctx).Failure? && forall j | 0 <= j < i :: Exec(es[j], ctx).Success?
  }

  /** Entries in order, each key before its value, into the fields built so
      far; a later key overwrites an earlier one. */
  function ExecEntries(es: seq<Entry>, ctx: Ctx, acc: map<string, Value>): (r: Result<map<string, Value>>)
    ensures r.Success? ==> acc.Keys <= r.value.Keys
    decreases es, 1
  {
    if es == [] then Success(acc)
    else
      match ExecEntry(es[0], ctx)
      case Failure(e) => Failure(e)
      case Success(kv) => ExecEntries(es[1..], ctx, acc[kv.0 := kv.1])
  }

  /** One entry: the key must evaluate to a string; a failing value is
      wrapped with that key. */
  function ExecEntry(e: Entry, ctx: Ctx): Result<(string, Value)>
    decreases e, 0
  {
    match Exec(e.key, ctx)
    case Failure(err) => Failure(err)
    case Success(k) =>
      if !k.Str? then Failure("object keys must be strings, received: " + KindName(k))
      else
        match Exec(e.val, ctx)
        case Failure(err) => Failure("failed to resolve '" + k.s + "' value: " + err)
        case Success(v) => Success((k.s, v))
  }

  /** The first case whose pattern matches decides; a literal pattern is
      compared with the target, any other pattern must evaluate to a
      boolean. */
  function ExecCases(cs: seq<Case>, v: Value, ctx: Ctx): Result<Value>
    decreases cs, 1
  {
    if cs == [] then Failure("no match cases matched value: " + Repr(v))
    else
      match CaseMatches(cs[0], v, ctx)
      case Failure(e) => Failure(e)
      case Success(hit) => if hit then Exec(cs[0].result, ctx) else ExecCases(cs[1..], v, ctx)
  }

  function CaseMatches(c: Case, v: Value, ctx: Ctx): Result<bool>
    decreases c, 0
  {
    match c.pattern
    case Wildcard => Success(true)
    case Test(Literal(w)) => Success(ValueEq(v, w))
    case Test(p) =>
      match Exec(p, ctx)
      case Failure(e) => Failure(e)
      case Success(b) => if b.Bool? then Success(b.b) else Failure(ExpectedValueError("boolean", b))
  }
}
