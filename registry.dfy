/**
 * The function and method registry: a fixed table of names with their
 * argument counts and the kinds of their parameters, consulted while
 * parsing so that an unknown name, a wrong argument count or a literal
 * argument of the wrong kind is rejected before anything runs.
 */
module Registry {
  import opened Wrappers
  import opened Values
  import opened Ast

  datatype Param = StringParam | IntParam | QueryParam

  datatype Signature = Signature(min: nat, max: nat, params: seq<Param>)

  /** Functions: `json([path])` and `meta([key])`. */
  function FunctionSignature(name: string): (r: Option<Signature>)
    ensures r.Some? <==> name in {"json", "meta"}
  {
    if name == "json" || name == "meta" then Some(Signature(0, 1, [StringParam])) else None
  }

  /** Methods: `from(index)`, `map(query)`, `uppercase()` and `from_all()`. */
  function MethodSignature(name: string): (r: Option<Signature>)
    ensures r.Some? <==> name in {"from", "map", "uppercase", "from_all"}
  {
    if name == "from" then Some(Signature(1, 1, [IntParam]))
    else if name == "map" then Some(Signature(1, 1, [QueryParam]))
    else if name == "uppercase" || name == "from_all" then Some(Signature(0, 0, []))
    else None
  }

  function ArityError(sig: Signature, n: nat): (r: Option<string>)
    ensures r.None? <==> sig.min <= n <= sig.max
  {
    if sig.min <= n <= sig.max then None
    else if sig.min == sig.max then
      Some("expected " + NatToString(sig.min) + " arguments, received: " + NatToString(n))
    else if n < sig.min then
      Some("expected at least " + NatToString(sig.min) + " arguments, received: " + NatToString(n))
    else
      Some("expected at most " + NatToString(sig.max) + " arguments, received: " + NatToString(n))
  }

  predicate Fits(p: Param, v: Value) {
    match p
    case StringParam => v.Str?
    case IntParam => v.Int64?
    case QueryParam => true
  }

  /** The message for a value that does not fit its parameter, used at parse
      time for literal arguments and at run time for computed ones. */
  function ParamError(p: Param, v: Value): (r: Option<string>)
    ensures r.None? <==> Fits(p, v)
  {
    match p
    case StringParam => if v.Str? then None else Some("expected string argument, received " + KindName(v))
    case IntParam => if v.Int64? then None else Some("expected int argument, received " + KindName(v))
    case QueryParam => None
  }

  /** An argument is checked at parse time only when it is a literal and a
      parameter is declared at its position. */
  predicate LiteralFits(params: seq<Param>, args: seq<Node>, i: nat)
    requires i < |args|
  {
    i < |params| && args[i].Literal? ==> Fits(params[i], args[i].value)
  }

  /** The error for the first literal argument, from position i on, that
      does not fit its parameter. */
  function LiteralArgError(params: seq<Param>, args: seq<Node>, i: nat): (r: Option<string>)
    requires i <= |args|
    ensures r.None? <==> forall j | i <= j < |args| :: LiteralFits(params, args, j)
    decreases |args| - i
  {
    if i == |args| then None
    else if i < |params| && args[i].Literal? && ParamError(params[i], args[i].value).Some? then
      assert !LiteralFits(params, args, i);
      ParamError(params[i], args[i].value)
    else LiteralArgError(params, args, i + 1)
  }

  /** Parse-time validation of a call: the count first, then the literal
      argument kinds. */
  function CheckArgs(sig: Signature, args: seq<Node>): (r: Option<string>)
    ensures r.None? <==>
              && sig.min <= |args| <= sig.max
              && forall j | 0 <= j < |args| :: LiteralFits(sig.params, args, j)
    ensures !(sig.min <= |args| <= sig.max) ==> r == ArityError(sig, |args|)
  {
    if ArityError(sig, |args|).Some? then ArityError(sig, |args|) else LiteralArgError(sig.params, args, 0)
  }

  predicate CallAccepted(sig: Option<Signature>, args: seq<Node>) {
    sig.Some? && CheckArgs(sig.value, args).None?
  }

  /** Every call in the tree names a registered function or method and passes
      the parse-time checks. */
  predicate Checked(n: Node)
    decreases n, 1
  {
    match n
    case Literal(_) => true
    case DynArray(es) => forall i | 0 <= i < |es| :: Checked(es[i])
    case DynObject(es) => forall i | 0 <= i < |es| :: EntryChecked(es[i])
    case Function(name, args) =>
      CallAccepted(FunctionSignature(name), args) && forall i | 0 <= i < |args| :: Checked(args[i])
    case Method(t, name, args) =>
      CallAccepted(MethodSignature(name), args) && Checked(t) && forall i | 0 <= i < |args| :: Checked(args[i])
    case Path(_) => true
    case Get(t, _) => Checked(t)
    case Scoped(t, b) => Checked(t) && Checked(b)
    case BinOp(_, l, r) => Checked(l) && Checked(r)
    case Match(t, cs) => Checked(t) && forall i | 0 <= i < |cs| :: CaseChecked(cs[i])
  }

  predicate EntryChecked(e: Entry)
    decreases e, 0
  {
    Checked(e.key) && Checked(e.val)
  }

  predicate CaseChecked(c: Case)
    decreases c, 0
  {
    (c.pattern.Test? ==> Checked(c.pattern.node)) && Checked(c.result)
  }
}
