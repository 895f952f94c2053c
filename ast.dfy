/**
 * The executable tree a parse produces. One closed datatype stands for the
 * source's family of Function implementations; evaluation dispatches on it.
 */
module Ast {
  import opened Values

  datatype Op =
    | Add | Sub | Mul | Div
    | Eq | Neq | Lt | Gt | Le | Ge
    | And | Or
    | Coalesce

  datatype Node =
    | Literal(value: Value)                         // constant, no sub-evaluation
    | DynArray(elems: seq<Node>)                    // elements evaluated in order
    | DynObject(entries: seq<Entry>)                // key then value, in order
    | Function(name: string, args: seq<Node>)       // `name(args)`
    | Method(target: Node, name: string, args: seq<Node>)  // `target.name(args)`
    | Path(segments: seq<string>)                   // `this.a.b` or `a.b`
    | Get(target: Node, field: string)              // `target.field` after a call
    | Scoped(target: Node, body: Node)              // `target.(body)`
    | BinOp(op: Op, left: Node, right: Node)
    | Match(target: Node, cases: seq<Case>)

  datatype Entry = Entry(key: Node, val: Node)

  datatype Case = Case(pattern: Pattern, result: Node)

  datatype Pattern = Wildcard | Test(node: Node)

  /** Binding strength, low to high: `||`, `&&`, comparisons, additive,
      multiplicative, then the fallback operator `|`. */
  function Prec(op: Op): nat {
    match op
    case Or => 1
    case And => 2
    case Eq | Neq | Lt | Gt | Le | Ge => 3
    case Add | Sub => 4
    case Mul | Div => 5
    case Coalesce => 6
  }
}
