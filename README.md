# Bloblang query front end in Dafny

This project models the front end of the Bloblang query language of
Benthos: the parser that turns a query written as text into an executable
tree, and the evaluator `Exec(ctx)` that runs such a tree against a message
context. The behaviour modelled is the behaviour fixed by the two
table-driven test files of `internal/bloblang/query`. Every row of those
tables is proved as a lemma about the model. Beyond the rows:

- the failure side of parsing is proved for all inputs (`ParserFailures`):
  where each kind of failure arises, what it expects, and whether it is
  required. The kinds covered are no term where one is due, a missing
  argument, a call or method the registry refuses, a bare word in the
  legacy grammar, a failing scoped body, an unclosed bracket, a match
  without `{`, an unterminated string, and a non-string object key. They
  also include every missing delimiter: `,` or `)` after an argument, a
  case or `}`, `=>` after a pattern, `,` or `]` after an element, `:`
  after a key, and `,` or `}` after an entry;
- the success side is proved for all inputs of a printable fragment of the
  language (`Printer`): string, integer, boolean and null literals, `json`
  and `meta` calls with no argument or one string argument, and binary
  operators over bracketed operands. Each prints to text that reads back,
  in both grammars, as its own tree, and any text after it that cannot
  continue a query is left whole, leading blanks and comments included;
- evaluation is proved for all inputs (`EvaluationProps`,
  `EvaluationCalls`).

Three success-side rules are proved only for the rows that show them:
- a path stops at a segment boundary;
- a bracketed query takes its postfix tails;
- a match block is consumed through its closing `}`.

## What is modelled

- **Values** (`Values`). A closed tagged union: Null, Bool, Int64, Number,
  String, Array and Object. The module also renders values inside messages.
- **The tree** (`Ast`). The node kinds are:
  - literals, dynamic arrays and dynamic objects;
  - paths, field steps, function and method calls;
  - scoped queries `x.(q)`, binary operators and `match` blocks.

  Binding strength, from loose to tight: `||`, `&&`, comparisons, `+ -`,
  `* /`, then the fallback `|`.
- **The registry** (`Registry`). The fixed catalogue the tests need:
  - `json` and `meta` take zero or one string argument;
  - `from` takes one int argument;
  - `map` takes one query argument;
  - `uppercase` and `from_all` take no argument.

  Calls are checked while parsing: the name, then the number of arguments,
  then the kind of each literal argument.
- **The combinator layer** (`Combinators`). Parse results are
  `Ok(value, next)` or `Fail(err)`. A failure has an offset, a `required:`
  flag and the names of the things expected there. The layer provides:
  - `OneOf`, which keeps the first success, lets a required failure win,
    and otherwise keeps the deeper failure, merging the expected lists of
    two failures at the same offset;
  - `Required` and `Expect`;
  - whitespace and comment skipping;
  - `ErrorAtPosition`, which renders `line L char C: <message>`.
- **Literal scanners** (`Literals`). Booleans, null, numbers and quoted
  strings with the escapes `\n`, `\t` and `\r`; any other escaped
  character stands for itself.
- **The query parser** (`QueryParser`). A recursive-descent parser over
  `seq<char>` and an offset, in two grammars selected by the `deprecated`
  flag:
  - operator chains resolved by precedence;
  - terms with their postfix chains: `.field`, `.method(args)`, `.(query)`;
  - bracketed queries and `match` blocks;
  - literal arrays and objects whose elements, keys and values may be
    queries; a structure made only of literals is folded into one literal.

  `Parse`/`ParseDeprecated` return `Parsed(payload, remaining, err)`, the
  model of `Result{Payload, Remaining, Err}`. `TryParse` returns the query
  or the error.
- **Resolution of operator chains** (`Arithmetic`). A flat chain of
  operands and operators is resolved into a tree. The lemmas prove that the
  tree keeps the chain and respects binding strength. They also prove that
  such a tree is unique.
- **The printer** (`Printer`). It prints a fragment of the language and
  proves that the parser reads the printed text back as that fragment's
  tree.
- **Evaluation** (`Evaluation`, `EvaluationProps`, `EvaluationCalls`).
  Dynamic arrays evaluate
  their elements in order and pass an element's error on unchanged. Dynamic
  objects evaluate each key, then its value, and report a failing value as
  `failed to resolve '<key>' value: <error>`. `+` on a value that is not a
  number fails with `expected number value, found <kind>: <value>`.
  Among the registered calls:
  - `json` and `meta` read the current message;
  - `from` and `from_all` switch the message;
  - `map` evaluates its query against the target's value;
  - `uppercase` upper-cases a string.
- **The tables** (`ErrorsTable`, `TailErrorsTable`, `LimitsTable`,
  `LiteralTable`).
  - Each error row proves the exact failure. It also proves that failure's
    rendering with `ErrorAtPosition`.
  - Each limits row proves the exact parse: the tree and the remaining text.
  - Each literal row proves the parse and the value `Exec` gives, or the
    exact error.

  The modules `ParserSteps`, `ParserTerms`, `ParserFailures`,
  `LiteralSteps` and `TableText` hold the step lemmas the rows are built
  from.

Two choices follow from the rows:

- `and` is not an operator. `json("foo") and this` leaves ` and this`, so
  the boolean operators are `&&` and `||`.
- `+` always yields a Number. `{"foo":(5 + 5)}` gives `float64(10)`, so
  arithmetic on two Int64 values is carried out on reals.

## Model

| member | source | states |
|---|---|---|
| ErrorsTable.BadFunction | internal/bloblang/query/parser_test.go:17-21 | in the legacy grammar `not a function` fails with `expected function arguments` at offset 3, rendered `line 1 char 4: ...` |
| ErrorsTable.UnknownFunction | internal/bloblang/query/parser_test.go:22-25 | `not_a_function()` fails at the name's first character with `unrecognised function 'not_a_function'` |
| ErrorsTable.OpenStringArg | internal/bloblang/query/parser_test.go:26-30 | legacy `json("foo` fails, required, with `expected end quote` one past the input, char 10 |
| ErrorsTable.OpenArgs | internal/bloblang/query/parser_test.go:31-34 | `json(` fails, required, at char 6 expecting `boolean, number, quoted string, or query` |
| ErrorsTable.TrailingComma | internal/bloblang/query/parser_test.go:35-38 | `json(0,` fails the same way at char 8 |
| ErrorsTable.BareJson | internal/bloblang/query/parser_test.go:39-43 | legacy `json` fails with `expected function arguments` at char 5 |
| ErrorsTable.NumberArg | internal/bloblang/query/parser_test.go:44-47 | `json(5)` is refused at the name: `expected string argument, received int64` |
| ErrorsTable.BooleanArgument | internal/bloblang/query/parser_test.go:48-51 | `json(false)` is refused at the name: `expected string argument, received bool` |
| ErrorsTable.BadOperators | internal/bloblang/query/parser_test.go:52-55 | an operator with no right operand fails, not required, with `expected query` at the end of the input, char 15 |
| ErrorsTable.UnclosedBracket | internal/bloblang/query/parser_test.go:56-59 | `(json("foo") ` fails, required, `expected closing bracket` after the trailing blank, char 14 |
| ErrorsTable.BracketOperator | internal/bloblang/query/parser_test.go:60-63 | inside a bracket a missing right operand is `expected query` at char 16, not required |
| ErrorsTable.UnclosedSum | internal/bloblang/query/parser_test.go:64-67 | `(json("foo") + meta("bar") ` fails, required, `expected closing bracket` at char 28 |
| TailErrorsTable.UnknownMethod | internal/bloblang/query/parser_test.go:68-76 | in both grammars `json("foo").not_a_thing()` fails with `unrecognised method 'not_a_thing'` at char 13 |
| TailErrorsTable.OpenMethodArgs | internal/bloblang/query/parser_test.go:77-80 | `json("foo").from(` fails, required, at char 18 expecting an argument |
| TailErrorsTable.FromNothing | internal/bloblang/query/parser_test.go:81-84 | `from()` is refused at the method name: `expected 1 arguments, received: 0` |
| TailErrorsTable.FromString | internal/bloblang/query/parser_test.go:85-88 | `from("nah")` is refused at the method name: `expected int argument, received string` |
| TailErrorsTable.MapNothing | internal/bloblang/query/parser_test.go:89-92 | `map()` is refused at the method name: `expected 1 arguments, received: 0` |
| TailErrorsTable.ScopedGibberish | internal/bloblang/query/parser_test.go:93-96 | `json("foo").(=)` fails with `required: expected query` at char 14 |
| TailErrorsTable.ScopedSum | internal/bloblang/query/parser_test.go:97-100 | `json("foo").(1 + )` fails with `required: expected query` at char 18 |
| TailErrorsTable.MatchAtEnd | internal/bloblang/query/parser_test.go:101-104 | `match json("foo")` fails, required, `expected {` at the end of the input, char 18 |
| TailErrorsTable.MatchThenWords | internal/bloblang/query/parser_test.go:105-108 | with text after the target the failure is at its first non-blank character, char 19 |
| LimitsTable.Nothing | internal/bloblang/query/parser_test.go:128-131 | `json("foo") + meta("bar")` parses to the sum and leaves nothing |
| LimitsTable.SpaceBefore | internal/bloblang/query/parser_test.go:132-135 | leading blanks are skipped: the same tree, nothing left |
| LimitsTable.SpaceBefore2 | internal/bloblang/query/parser_test.go:136-139 | blanks around the operator are consumed |
| LimitsTable.UnfinishedComment | internal/bloblang/query/parser_test.go:140-143 | a trailing comment is left with its leading blank: ` # Here's a comment` |
| LimitsTable.ExtraText | internal/bloblang/query/parser_test.go:144-147 | after one call ` and this` is left, so `and` is not an operator |
| LimitsTable.ExtraText2 | internal/bloblang/query/parser_test.go:148-151 | after a sum ` and this` is left |
| LimitsTable.ExtraText3 | internal/bloblang/query/parser_test.go:152-155 | without blanks `and this` is left |
| LimitsTable.ExtraText4 | internal/bloblang/query/parser_test.go:156-159 | the run of blanks before the words is left with them |
| LimitsTable.SquigglyBracket | internal/bloblang/query/parser_test.go:160-163 | a stray `}` is left |
| LimitsTable.NormalBracket | internal/bloblang/query/parser_test.go:164-167 | a stray `)` is left |
| LimitsTable.NormalBracket2 | internal/bloblang/query/parser_test.go:168-171 | `)))` is left |
| LimitsTable.NormalBracket3 | internal/bloblang/query/parser_test.go:172-175 | `) + json("bar")` is left: the query ends at the stray bracket |
| LimitsTable.PathLiterals | internal/bloblang/query/parser_test.go:176-179 | `this.foo bar baz` is the path `this.foo`, with ` bar baz` left |
| LimitsTable.PathLiterals2 | internal/bloblang/query/parser_test.go:180-183 | a dot after a blank ends the path: ` . bar baz` is left |
| LimitsTable.BracketsAtRoot | internal/bloblang/query/parser_test.go:184-187 | a bracketed fallback query followed by `.from_all()` is a method call on the bracket, with nothing left |
| LimitsTable.BracketsAfterRoot | internal/bloblang/query/parser_test.go:188-191 | `this.root.( ... ).from_all()` is a method call on a scoped query over the path, with nothing left |
| LimitsTable.BracketsAfterRoot2 | internal/bloblang/query/parser_test.go:192-195 | field steps `.bar.baz` continue after the method call, with nothing left |
| LimitsTable.ThisAtRoot | internal/bloblang/query/parser_test.go:196-199 | `this.foo.bar` is read whole and ` and then this` is left |
| LimitsTable.PathLiteralAtRoot | internal/bloblang/query/parser_test.go:200-203 | the bare path `foo.bar` is read the same way |
| LimitsTable.MatchExpression | internal/bloblang/query/parser_test.go:204-211 | the match block with its two cases is read through its closing brace and `\nnot this` is left |
| LimitsTable.OperatorsAndLineBreaks | internal/bloblang/query/parser_test.go:212-217 | line breaks after operators are consumed; `(5 * 8) + 6 - 5` groups to the left and ` and also this` is left |
| LiteralTable.NumberKey | internal/bloblang/query/literal_parser_test.go:16-19 | `{5:"foo"}` fails at the brace: `object keys must be strings, received: int64` |
| LiteralTable.OpenElement | internal/bloblang/query/literal_parser_test.go:20-23 | an unterminated string in an array fails, required, `expected end quote` at char 30 |
| LiteralTable.StaticObject | internal/bloblang/query/literal_parser_test.go:48-53 | `{"foo":"bar"}` is folded into one literal that evaluates to itself |
| LiteralTable.SumValue | internal/bloblang/query/literal_parser_test.go:54-59 | `{"foo":(5 + 5)}` is a dynamic object evaluating to `foo: Number 10` |
| LiteralTable.ComputedKey | internal/bloblang/query/literal_parser_test.go:60-65 | a computed key is evaluated and used: `FOOBAR: Int64 5` |
| LiteralTable.NestedObject | internal/bloblang/query/literal_parser_test.go:66-73 | a dynamic value nested in an object is evaluated at depth two |
| LiteralTable.SumElement | internal/bloblang/query/literal_parser_test.go:74-79 | `["foo",(5 + 5),null]` evaluates to those values in order, null kept |
| LiteralTable.NestedArray | internal/bloblang/query/literal_parser_test.go:80-85 | a dynamic element of a nested array is evaluated in place |
| LiteralTable.BadArrayElement | internal/bloblang/query/literal_parser_test.go:86-89 | the failing element's error is the array's, unwrapped |
| LiteralTable.BadObjectValue | internal/bloblang/query/literal_parser_test.go:90-93 | the failing value's error is wrapped with its key `foo` |
| EvaluationProps.ArrayOfValues | internal/bloblang/query/literal_parser_test.go:74-85 | when every element evaluates, the array holds exactly their values, in order |
| EvaluationProps.ArrayErrorUnwrapped | internal/bloblang/query/literal_parser_test.go:86-89 | the first failing element decides and its error is passed on unchanged |
| EvaluationProps.EntriesStopAt | internal/bloblang/query/literal_parser_test.go:90-93 | object evaluation stops at the first failing entry with that entry's error |
| EvaluationProps.ObjectValueErrorWrapped | internal/bloblang/query/literal_parser_test.go:90-93 | a failing value is reported as `failed to resolve '<key>' value: <error>` |
| EvaluationProps.ObjectKeyErrors | internal/bloblang/query/literal_parser_test.go:60-65 | a key that fails passes its error on; one that is not a string is `object keys must be strings, received: <kind>` |
| EvaluationProps.EntriesInOrder | internal/bloblang/query/literal_parser_test.go:54-73 | entries that all evaluate give the fields of the reference fold Fields; EvaluationCalls.FieldsLastWins and FieldsKeep say which value each key has |
| EvaluationProps.EntryKeyThenValue | internal/bloblang/query/literal_parser_test.go:60-65 | an entry evaluates its key first, and then its value |
| EvaluationProps.StaticEntriesEvaluate | internal/bloblang/query/literal_parser_test.go:48-53 | static entries evaluate, in any context, to the fields folded at parse time |
| EvaluationProps.ArrayFoldingSound | internal/bloblang/query/literal_parser_test.go:74-85 | folding an array of literals changes nothing it evaluates to |
| EvaluationProps.ObjectFoldingSound | internal/bloblang/query/literal_parser_test.go:48-53 | folding a static object changes nothing it evaluates to |
| EvaluationProps.AddSemantics | internal/bloblang/query/literal_parser_test.go:54-59 | `+` of two numbers is a Number, even for two Int64; otherwise the first non-number is named in `expected number value, found ...` |
| EvaluationProps.OperandErrorsPropagate | internal/bloblang/query/literal_parser_test.go:86-89 | except for the fallback operator, a failing operand fails the operation with its own error, left first |
| EvaluationProps.CoalesceFallsBack | internal/bloblang/query/parser_test.go:184-187 | the fallback `a` or `b` is a unless a fails, and then b; no row evaluates this |
| EvaluationProps.NoCaseMatches | internal/bloblang/query/parser_test.go:204-211 | when no case matches, evaluation fails naming the target value; no row evaluates this |
| EvaluationProps.FirstMatchingCase | internal/bloblang/query/parser_test.go:204-211 | the first matching case decides and later cases are not looked at; no row evaluates this |
| EvaluationProps.MatchScopesTarget | internal/bloblang/query/parser_test.go:204-211 | the cases see the target as their context value; a failing target fails the match; no row evaluates this |
| EvaluationProps.WalkNull | internal/bloblang/query/parser_test.go:196-203 | walking a path on from null gives null; no row evaluates this |
| EvaluationProps.MissingFieldIsNull | internal/bloblang/query/parser_test.go:196-203 | a missing field, and any path under it, is null rather than an error; no row evaluates this |
| Evaluation.ExecList | internal/bloblang/query/literal_parser_test.go:74-89 | element evaluation succeeds with one value per element, or fails with the first failing element's error |
| Evaluation.Arith | internal/bloblang/query/literal_parser_test.go:54-59 | arithmetic on two numbers gives a Number, and fails only on a division by zero |
| EvaluationProps.ApplyOutcomes | internal/bloblang/query/literal_parser_test.go:86-89 | arithmetic succeeds exactly on two numbers (not dividing by zero) and gives a Number; comparisons succeed exactly on two numbers or two strings, `&&`/`||` exactly on two booleans, `==`/`!=` always, each giving a Bool |
| Evaluation.ExecEntries | internal/bloblang/query/literal_parser_test.go:48-73 | a successful fold keeps every field built before it |
| EvaluationCalls.NoArguments | internal/bloblang/query/parser_test.go:184-187 | a call without arguments goes straight to the registry |
| EvaluationCalls.JsonWhole | internal/bloblang/query/parser_test.go:128-131 | `json()` is the current message's content; an index outside the batch and an unstructured message are errors that say so; no row evaluates this |
| EvaluationCalls.JsonOutOfRange | internal/bloblang/query/parser_test.go:128-131 | outside the batch, `json` fails with `json: message index <i> is out of range`; no row evaluates this |
| EvaluationCalls.JsonInRange | internal/bloblang/query/parser_test.go:128-131 | inside the batch, `json` is the content, or `json: message is not structured`; no row evaluates this |
| EvaluationCalls.JsonPath | internal/bloblang/query/parser_test.go:128-131 | `json("a.b")` walks the content along the dotted segments; no row evaluates this |
| EvaluationCalls.MetaKey | internal/bloblang/query/parser_test.go:128-131 | `meta("k")` is the metadata value of k as a string, or null when it is missing; no row evaluates this |
| EvaluationCalls.PathArgumentMustBeString | internal/bloblang/query/parser_test.go:44-51 | at run time, the counterpart of these rows: a `json` or `meta` argument that is not a string fails with `expected string value, found ...` |
| EvaluationCalls.UnknownFunction | internal/bloblang/query/parser_test.go:22-25 | at run time, the counterpart of this row: a name outside the registry fails with `unrecognised function '<name>'` |
| EvaluationCalls.UppercaseMethod | internal/bloblang/query/literal_parser_test.go:60-65 | `uppercase` of a string is its upper-cased form; another value fails naming it; a failing target passes its error on |
| EvaluationCalls.MapMethod | internal/bloblang/query/parser_test.go:89-92 | `t.map(q)` is q evaluated with t's value as context, and t's failure if it fails; no row evaluates this |
| EvaluationCalls.MapThis | internal/bloblang/query/parser_test.go:89-92 | mapping with the empty path gives the target back; no row evaluates this |
| EvaluationCalls.FromMethod | internal/bloblang/query/parser_test.go:77-88 | `t.from(i)` is t evaluated against message i with no context value; a non-int index fails naming it; no row evaluates this |
| EvaluationCalls.FromReadsMessage | internal/bloblang/query/parser_test.go:77-88 | `json().from(i)` is the content of message i; no row evaluates this |
| EvaluationCalls.FromAllCollects | internal/bloblang/query/parser_test.go:184-195 | when every message succeeds, the collection holds their values in batch order; no row evaluates this |
| EvaluationCalls.FromAllStopsAt | internal/bloblang/query/parser_test.go:184-195 | the first message for which the target fails decides the error; no row evaluates this |
| EvaluationCalls.FromAllMethod | internal/bloblang/query/parser_test.go:184-195 | `t.from_all()` is the array of t over every message, in order; no row evaluates this |
| EvaluationCalls.UnknownMethod | internal/bloblang/query/parser_test.go:68-76 | a method outside the registry, or with the wrong number of arguments, fails with `unrecognised method '<name>'` |
| EvaluationCalls.WalkAppend | internal/bloblang/query/parser_test.go:196-203 | walking a concatenated path walks the first part, then the second from where it arrived; no row evaluates this |
| EvaluationCalls.WalkScalarFails | internal/bloblang/query/parser_test.go:196-203 | a step into a scalar that is not null fails with `expected object value, found ...`; no row evaluates this |
| EvaluationCalls.WalkIntoField | internal/bloblang/query/parser_test.go:196-203 | a present field is followed into its value; no row evaluates this |
| EvaluationCalls.PathRelativeToValue | internal/bloblang/query/parser_test.go:196-203 | inside a context value, a path is walked from it; no row evaluates this |
| EvaluationCalls.PathRelativeToMessage | internal/bloblang/query/parser_test.go:196-203 | otherwise it is walked from the message content, or fails with `path: message is not structured`; no row evaluates this |
| EvaluationCalls.FieldsKeep | internal/bloblang/query/literal_parser_test.go:54-73 | a key no entry sets keeps its presence and value from the fields built so far |
| EvaluationCalls.FieldsLastWins | internal/bloblang/query/literal_parser_test.go:54-73 | the last entry setting a key decides that key's value |
| EvaluationCalls.ObjectLastKeyWins | internal/bloblang/query/literal_parser_test.go:54-73 | a dynamic object whose entries all evaluate maps each key to the value of the last entry that sets it |
| EvaluationCalls.ObjectOnlyItsKeys | internal/bloblang/query/literal_parser_test.go:54-73 | it has no field that none of its entries sets |
| EvaluationCalls.CasesStep | internal/bloblang/query/parser_test.go:204-211 | one case at a time: none left fails, a match decides, a miss moves on, a failing pattern fails; no row evaluates this |
| EvaluationCalls.CasesSucceedThroughFirstMatch | internal/bloblang/query/parser_test.go:204-211 | a match that succeeds does so through its first matching case; no row evaluates this |
| EvaluationCalls.PatternKinds | internal/bloblang/query/parser_test.go:204-211 | `_` always matches, and a literal pattern matches by value equality; no row evaluates this |
| EvaluationCalls.EqSymmetric | internal/bloblang/query/parser_test.go:204-211 | `==` and `!=` do not depend on the order of their operands |
| Printer.QueryRoundTrip | internal/bloblang/query/parser_test.go:128-217 | a printed fragment laid anywhere and followed by text that cannot continue a query is read, in both grammars, as its own tree, to its end |
| Printer.PrintParses | internal/bloblang/query/parser_test.go:225-232 | a printed fragment followed by such text is the payload, the text is the remainder whole, and there is no error |
| Printer.PrintParsesAlone | internal/bloblang/query/parser_test.go:128-131 | a printed fragment alone is the payload with nothing left |
| Printer.ReprReadsBack | internal/bloblang/query/literal_parser_test.go:86-89 | null, a boolean or an integer shown in an error reads back as the same literal |
| Printer.TextTerm | internal/bloblang/query/literal_parser_test.go:48-53 | a quoted literal is the term for its string |
| Printer.IntTerm | internal/bloblang/query/literal_parser_test.go:60-65 | an integer not followed by an identifier character or a dot is the term for that Int64 |
| Printer.FlagTerm | internal/bloblang/query/parser_test.go:48-51 | `true` and `false` are the terms for the booleans |
| Printer.NothingTerm | internal/bloblang/query/literal_parser_test.go:74-79 | `null` is the term for null |
| Printer.CallTerm | internal/bloblang/query/parser_test.go:128-131 | `json(...)` and `meta(...)` with no argument or one quoted string are the terms for those calls |
| Arithmetic.LeavesOutnumberOps | internal/bloblang/query/parser_test.go:212-217 | an operator tree has one more operand than operators |
| Arithmetic.SplitIndexIsSplit | internal/bloblang/query/parser_test.go:212-217 | the chosen root operator binds no tighter than any other, and strictly looser than those after it |
| Arithmetic.ResolveKeepsChain | internal/bloblang/query/parser_test.go:212-217 | resolving a chain keeps its operands and operators in order |
| Arithmetic.ResolveKeepsLeaves | internal/bloblang/query/parser_test.go:212-217 | the resolved tree has the chain's operands in order |
| Arithmetic.ResolveKeepsOps | internal/bloblang/query/parser_test.go:212-217 | the resolved tree has the chain's operators in order |
| Arithmetic.ResolveOrdered | internal/bloblang/query/parser_test.go:212-217 | the resolved tree respects binding strength and groups equal operators to the left |
| Arithmetic.SplitUnique | internal/bloblang/query/parser_test.go:212-217 | there is only one root operator with that property |
| Arithmetic.OrderedSplitsAtRoot | internal/bloblang/query/parser_test.go:212-217 | in an ordered tree the root operator is that root |
| Arithmetic.OrderedIsResolved | internal/bloblang/query/parser_test.go:212-217 | every ordered tree is the resolution of its own chain, so resolution is the only ordered reading |
| ParserTerms.LeftGrouped | internal/bloblang/query/parser_test.go:212-217 | three operands whose second operator binds no tighter than the first group as `(x o1 y) o2 z` |
| Combinators.Deeper | internal/bloblang/query/parser_test.go:31-34 | the deeper failure wins, and two expected-lists at one offset are merged |
| Combinators.OneOf | internal/bloblang/query/parser_test.go:31-34 | a success is one of the alternatives; a failure sits where one of them failed |
| Combinators.OneOfSemantics | internal/bloblang/query/parser_test.go:31-34 | the first success wins; a required failure stops the alternatives; two recoverable failures give the deeper one |
| Combinators.Required | internal/bloblang/query/parser_test.go:56-59 | marking a failure required keeps its offset and what it expected |
| Combinators.Expect | internal/bloblang/query/parser_test.go:52-55 | renaming what is expected never turns a success into a failure or back, and a failure keeps its offset and whether it is required |
| Combinators.ExpectIdempotent | internal/bloblang/query/parser_test.go:52-55 | naming the expected item twice is naming it once |
| Combinators.SkipSpaces | internal/bloblang/query/parser_test.go:136-139 | skipping stops at the first character that is not a space or a tab |
| Combinators.SkipSpacesSkips | internal/bloblang/query/parser_test.go:136-139 | everything skipped is a space or a tab |
| Combinators.SkipBlank | internal/bloblang/query/parser_test.go:132-135 | skipping stops at the first non-blank character |
| Combinators.SkipBlankSkips | internal/bloblang/query/parser_test.go:132-135 | everything skipped is blank |
| Combinators.LineEnd | internal/bloblang/query/parser_test.go:140-143 | a comment runs to the line break or the end of the input |
| Combinators.LineEndStaysOnLine | internal/bloblang/query/parser_test.go:140-143 | no line break is passed on the way |
| Combinators.SkipBlankAndComments | internal/bloblang/query/parser_test.go:212-217 | skipping stops at a character that is neither blank nor a comment start |
| Combinators.SkipBlankAndCommentsSkips | internal/bloblang/query/parser_test.go:212-217 | everything skipped is blank or inside a comment |
| Combinators.CommentRun | internal/bloblang/query/parser_test.go:140-143 | the characters from `#` to the line end are inside a comment |
| Combinators.ScanIdent | internal/bloblang/query/parser_test.go:22-25 | an identifier ends at the first character that cannot continue it |
| Combinators.ScanIdentChars | internal/bloblang/query/parser_test.go:22-25 | every character read is an identifier character |
| Combinators.LineChar | internal/bloblang/query/parser_test.go:115-117 | the line is one more than the line breaks before the offset; the column counts from the last break |
| Combinators.FirstLineChar | internal/bloblang/query/parser_test.go:115-117 | an offset with no line break before it is line 1, char offset + 1 |
| Combinators.ErrorOnFirstLine | internal/bloblang/query/parser_test.go:115-117 | a failure with no line break before it renders as `line 1 char <offset + 1>: <message>`, an offset past the input counted at its end |
| Combinators.JoinOrEnds | internal/bloblang/query/parser_test.go:31-34 | a list of expected items is rendered with the first item first and the last introduced by ` or ` |
| Combinators.JoinOrTailEnds | internal/bloblang/query/parser_test.go:31-34 | the tail of such a rendering ends with ` or ` and the last item |
| ParserFailures.FirstLineError | internal/bloblang/query/parser_test.go:115-117 | a failure on the first line renders as `line 1 char <offset + 1>: <message>` |
| Registry.FunctionSignature | internal/bloblang/query/parser_test.go:22-25 | exactly `json` and `meta` are functions |
| Registry.MethodSignature | internal/bloblang/query/parser_test.go:68-76 | exactly `from`, `map`, `uppercase` and `from_all` are methods |
| Registry.ArityError | internal/bloblang/query/parser_test.go:81-92 | an arity error exactly when the count is outside the signature's bounds |
| Registry.ParamError | internal/bloblang/query/parser_test.go:44-51 | a kind error exactly when the literal does not fit the parameter |
| Registry.LiteralArgError | internal/bloblang/query/parser_test.go:85-88 | no error exactly when every literal argument fits its parameter |
| Registry.CheckArgs | internal/bloblang/query/parser_test.go:81-88 | a call is accepted exactly when its count fits and its literal arguments fit; a wrong count is reported first |
| QueryParser.OperatorAt | internal/bloblang/query/parser_test.go:52-55 | an operator found is spelled by the characters read |
| QueryParser.OperatorRoundTrip | internal/bloblang/query/parser_test.go:128-131 | an operator's own spelling, followed by a space, is read back as that operator |
| QueryParser.OpText | internal/bloblang/query/parser_test.go:212-217 | every operator is spelled with one or two characters |
| QueryParser.MakeArray | internal/bloblang/query/literal_parser_test.go:74-85 | an array of literals is folded into one array literal; any other stays dynamic |
| QueryParser.MakeObject | internal/bloblang/query/literal_parser_test.go:48-59 | a static object is folded into its fields; any other stays dynamic |
| QueryParser.ParseScalar | internal/bloblang/query/parser_test.go:44-51 | a scalar is a boolean, null, number or string read from the input |
| QueryParser.PathSegments | internal/bloblang/query/parser_test.go:176-183 | path segments end on an identifier character, and there are none only if nothing is read |
| QueryParser.ParsePath | internal/bloblang/query/parser_test.go:176-183 | a path is read within the input, and where there is none it fails recoverably expecting `path` |
| QueryParser.ParseField | internal/bloblang/query/parser_test.go:196-203 | a field step is read within the input and never fails fatally |
| QueryParser.ParseQuery | internal/bloblang/query/parser_test.go:128-217 | a query is read within the input, its tree passes the registry, and any failure lies in the input |
| QueryParser.OpChain | internal/bloblang/query/parser_test.go:212-217 | an operator chain pairs each operator with an operand that passes the registry; reading nothing is the empty chain |
| QueryParser.OperandChain | internal/bloblang/query/parser_test.go:212-217 | after an operator the chain reads at least one character |
| QueryParser.ParseOperand | internal/bloblang/query/parser_test.go:184-195 | an operand is read within the input and its tree passes the registry |
| QueryParser.ParseTerm | internal/bloblang/query/parser_test.go:176-211 | a term is read within the input and its tree passes the registry |
| QueryParser.Tails | internal/bloblang/query/parser_test.go:184-195 | a postfix chain returns its target when it reads nothing, and any failure is fatal |
| QueryParser.ParseScoped | internal/bloblang/query/parser_test.go:93-100 | a scoped query is read within the input and its tree passes the registry |
| QueryParser.ParseMethod | internal/bloblang/query/parser_test.go:68-92 | a method call is read within the input and passes the registry |
| QueryParser.ParseFunction | internal/bloblang/query/parser_test.go:17-51 | a function call is read within the input and passes the registry |
| QueryParser.ParseArgs | internal/bloblang/query/parser_test.go:17-21 | without an opening bracket the only recoverable failure is `expected function arguments` at the name's end |
| QueryParser.ArgList | internal/bloblang/query/parser_test.go:31-38 | an argument list read consumes its closing bracket, and its failures are fatal |
| QueryParser.ArgsAfter | internal/bloblang/query/parser_test.go:35-38 | the argument already read is the first, and failures after it are fatal |
| QueryParser.ParseArg | internal/bloblang/query/parser_test.go:31-51 | an argument is read within the input and passes the registry |
| QueryParser.ParseBracket | internal/bloblang/query/parser_test.go:56-67 | a bracketed query is read within the input and passes the registry |
| QueryParser.ParseMatch | internal/bloblang/query/parser_test.go:101-108 | a match block is read within the input and passes the registry |
| QueryParser.MatchBlock | internal/bloblang/query/parser_test.go:101-108 | past the target, a match read keeps that target, lies within the input and passes the registry |
| QueryParser.Cases | internal/bloblang/query/parser_test.go:204-211 | the cases read consume the closing brace and each passes the registry |
| QueryParser.CasesAfter | internal/bloblang/query/parser_test.go:204-211 | the case already read is the first of the list |
| QueryParser.ParseCase | internal/bloblang/query/parser_test.go:204-211 | a case is read within the input and passes the registry |
| QueryParser.ParsePattern | internal/bloblang/query/parser_test.go:204-211 | a pattern is a wildcard or a query that passes the registry |
| QueryParser.CaseResult | internal/bloblang/query/parser_test.go:204-211 | the result after `=>` completes a case that passes the registry |
| QueryParser.ParseLiteral | internal/bloblang/query/literal_parser_test.go:16-23 | a literal is read within the input and passes the registry |
| QueryParser.ParseElement | internal/bloblang/query/literal_parser_test.go:74-85 | an element is read within the input and passes the registry |
| QueryParser.ParseArray | internal/bloblang/query/literal_parser_test.go:20-23 | an array is read within the input and passes the registry |
| QueryParser.Elements | internal/bloblang/query/literal_parser_test.go:74-85 | the elements read consume the closing bracket and each passes the registry |
| QueryParser.ElementsAfter | internal/bloblang/query/literal_parser_test.go:74-85 | the element already read is the first of the list |
| QueryParser.ParseObject | internal/bloblang/query/literal_parser_test.go:16-19 | an object is read within the input and passes the registry |
| QueryParser.ParseEntry | internal/bloblang/query/literal_parser_test.go:16-19 | an entry is read within the input, and a failure is never before the brace |
| QueryParser.EntryValue | internal/bloblang/query/literal_parser_test.go:48-53 | past an accepted key, the entry read keeps that key, lies within the input and passes the registry |
| QueryParser.Entries | internal/bloblang/query/literal_parser_test.go:48-65 | the entries read consume the closing brace and each passes the registry |
| QueryParser.EntriesAfter | internal/bloblang/query/literal_parser_test.go:48-65 | the entry already read is the first of the list |
| QueryParser.ParseIn | internal/bloblang/query/parser_test.go:225-232 | there is a payload exactly when there is no error; the remainder is a proper suffix of the input; a failed parse leaves the whole input |
| QueryParser.TryParse | internal/bloblang/query/parser_test.go:115-117 | the query is accepted exactly when the parse has no error; an accepted query passes the registry, and a rejection lies within the input |
| QueryParser.Parse | internal/bloblang/query/parser_test.go:225-232 | in the current grammar, a payload exactly when there is no error; a payload passes the registry and leaves a proper suffix of the input; a failure leaves the whole input |
| QueryParser.ParseDeprecated | internal/bloblang/query/parser_test.go:225-232 | the same for the legacy grammar |
| ParserFailures.NoTermAt | internal/bloblang/query/parser_test.go:52-55 | where no term can start, an operand fails recoverably with `expected query` |
| ParserFailures.ArgMissing | internal/bloblang/query/parser_test.go:31-38 | where no argument can start, the failure expects `boolean, number, quoted string, query` |
| ParserFailures.CallRejected | internal/bloblang/query/parser_test.go:22-25 | a call the registry refuses fails at its name with the refusal |
| ParserFailures.BareWord | internal/bloblang/query/parser_test.go:39-43 | in the legacy grammar a word without `(` fails with `expected function arguments` at its end |
| ParserFailures.MethodRejected | internal/bloblang/query/parser_test.go:68-92 | a method the registry refuses fails at the method name |
| ParserFailures.ScopedFails | internal/bloblang/query/parser_test.go:93-100 | a scoped query whose body fails fails with that failure, required |
| ParserFailures.BracketUnclosed | internal/bloblang/query/parser_test.go:56-67 | a bracket not closed after its query fails, required, where `)` was expected |
| ParserFailures.BracketInnerFails | internal/bloblang/query/parser_test.go:60-63 | a bracket whose query fails past the `(` fails with that failure unchanged |
| ParserFailures.MatchUnopened | internal/bloblang/query/parser_test.go:101-108 | a match target not followed by `{` fails, required, at the next non-blank character |
| ParserFailures.Unterminated | internal/bloblang/query/literal_parser_test.go:20-23 | a string with no closing quote fails, required, `expected end quote` one past the input |
| ParserFailures.KeyNotString | internal/bloblang/query/literal_parser_test.go:16-19 | a literal key that is not a string is refused at the object's brace, naming its kind |
| ParserFailures.ArgsUnclosed | internal/bloblang/query/parser_test.go:31-38 | after an argument, any character but `,` or `)`, or the end of the input, fails, required, expecting `,` or `)`; no row fails this way |
| ParserFailures.CasesUnclosed | internal/bloblang/query/parser_test.go:204-211 | where a case or `}` is due and the case fails, the failure is required: a case failure past that offset is kept, one at the offset has `}` added to what it expected, and a fatal one is unchanged; no row fails this way |
| ParserFailures.ArrowMissing | internal/bloblang/query/parser_test.go:204-211 | a pattern not followed, after spaces and tabs, by `=>` fails, required, expecting `=>`; no row fails this way |
| ParserFailures.ElementsUnclosed | internal/bloblang/query/literal_parser_test.go:20-23 | after an array element, any character but `,` or `]`, or the end of the input, fails, required, expecting `,` or `]`; no row fails this way |
| ParserFailures.ColonMissing | internal/bloblang/query/literal_parser_test.go:16-19 | an accepted object key not followed by `:` fails, required, expecting `:`; no row fails this way |
| ParserFailures.EntriesUnclosed | internal/bloblang/query/literal_parser_test.go:16-19 | after an object entry, any character but `,` or `}`, or the end of the input, fails, required, expecting `,` or `}`; no row fails this way |
| ParserSteps.ChainBroken | internal/bloblang/query/parser_test.go:52-55 | an operator whose operand fails fails the chain with that failure |
| Literals.ParseBoolean | internal/bloblang/query/parser_test.go:48-51 | `true`/`false` read as a Bool exactly when the keyword is there; otherwise `expected boolean` |
| Literals.ParseNull | internal/bloblang/query/literal_parser_test.go:74-79 | `null` read exactly when the keyword is there |
| Literals.ScanDigits | internal/bloblang/query/parser_test.go:44-47 | reads the maximal run of digits |
| Literals.ScanDigitsRun | internal/bloblang/query/parser_test.go:44-47 | a run of digits ending at a non-digit is what is scanned |
| Literals.ParseNumber | internal/bloblang/query/literal_parser_test.go:60-65 | a number is Int64 exactly when it has no dot, and it ends on a digit; Literals.IntegerAt and DecimalAt state the value read |
| Literals.IntegerLiteral | internal/bloblang/query/literal_parser_test.go:60-65 | the decimal spelling of an integer reads back as that Int64 |
| Literals.IntegerAt | internal/bloblang/query/literal_parser_test.go:60-65 | an integer spelled anywhere and not followed by a digit or a dot reads as that Int64 |
| Literals.DecimalAt | internal/bloblang/query/literal_parser_test.go:54-59 | a decimal `w.f`, possibly negative, reads as the Number w + f / 10^digits(f) |
| Literals.NoExponent | internal/bloblang/query/literal_parser_test.go:54-59 | there is no exponent form: `1e3` reads as the Int64 1 and leaves `e3` |
| Literals.ParseQuotedString | internal/bloblang/query/parser_test.go:26-30 | a string runs from quote to quote; an opening quote with no closing one fails, required, at the input's end |
| Literals.ScanString | internal/bloblang/query/parser_test.go:26-30 | a string body either closes on a quote within the input or fails, required, with `expected end quote` at the input's end |
| Literals.ScanEscaped | internal/bloblang/query/literal_parser_test.go:86-93 | an escaped body followed by a quote reads back as the original text |
| Literals.QuoteRoundTrip | internal/bloblang/query/literal_parser_test.go:48-53 | quoting a string and reading it back gives the string and the position after the quotes |
| Literals.QuoteAt | internal/bloblang/query/literal_parser_test.go:48-53 | a quoted literal spelled anywhere reads back as the string it quotes, whatever follows |
| Values.DigitsOfNatToString | internal/bloblang/query/parser_test.go:115-117 | the column rendered in a message reads back as the number it stands for |
| Values.NatToString | internal/bloblang/query/parser_test.go:115-117 | a number is rendered as a non-empty run of digits |
| Values.KindNameTellsKind | internal/bloblang/query/literal_parser_test.go:16-19 | two values with the same kind name in an error are of the same kind |
| EvaluationCalls.UpperCases | internal/bloblang/query/literal_parser_test.go:60-65 | upper-casing turns each lower-case ASCII letter into its capital, keeps every other character, and leaves no lower-case letter |
| EvaluationCalls.UpperIdempotent | internal/bloblang/query/literal_parser_test.go:60-65 | upper-casing twice is upper-casing once |

## Left out

- `lib/tracer/jaeger.go`: a wrapper around a third-party tracing client (global tracer, closing, duration parsing); it holds no query logic.
- The test harness: `t.Parallel()`, the testify assertions and map iteration order. Each table row is a lemma instead.
- Message batches and metadata are a plain record (`Ctx` with a `seq<Message>`). No message library is modelled, and the literal rows evaluate in an empty context.
- IEEE float64: `Number` carries an exact real, so `5 + 5` is exactly 10. Rounding, NaN and infinities are not modelled.
- Int64 width: `Int64` carries an unbounded integer. Overflow of 64-bit arithmetic and of numeric literals is not modelled.
- The Bytes value kind of the system is not modelled; no row produces one.
- The real catalogue of functions and methods: only the six the tables use are registered, with the arities and parameter kinds the tables show.
- Legacy-grammar behaviour beyond the rows marked `deprecated: true`: the legacy grammar differs only in having no bare paths.
- Error wording that no row fixes is the model's own choice:
  - `expected , or )`, `expected , or ]` and `expected , or }`;
  - `expected :` after an object key and `expected =>` after a pattern;
  - the `}` alternative merged into the failure of a case list;
  - `json: message is not structured` and `path: message is not structured`;
  - `json: message index <i> is out of range`;
  - runtime path errors;
  - the runtime `object keys must be strings, received: <kind>`;
  - division by zero;
  - comparison of unlike kinds;
  - a match with no matching case;
  - `Repr` showing an array or an object as the bare word `array` or `object`.
- Paths, `|`, `match`, `json`, `meta`, `from`, `from_all` and `map` evaluate by the model's own rules, and no row evaluates them. A path walks fields from the context value, or else from the message content; a missing field and a step into null give null. `a | b` is a unless a fails. The first case whose pattern matches decides.
- Literals.Unescape: escapes follow the model's own rule, and no row uses one. `\n`, `\t` and `\r` stand for a line feed, a tab and a carriage return. Any other escaped character stands for itself, an unknown one such as `\q` included, with no error. There is no `\u` or `\x` form.
- Values.Upper: ASCII only. Letters outside `a`-`z` are kept as they are, so Unicode case mapping is not modelled.
- ParseNumber: there is no exponent form. `1e3` reads as the Int64 1 and leaves `e3` (Literals.NoExponent). Its own contract gives the kind and the end; the value is stated by Literals.IntegerAt and Literals.DecimalAt.
- ParseScalar: its own contract states only the kind of the scalar read (Good means the result lies within the input and passes the registry), not the tree read. The trees are stated by Literals.QuoteAt, Literals.IntegerAt, Literals.DecimalAt and Printer.TextTerm/IntTerm/FlagTerm/NothingTerm.
- PathSegments: its own contract states only where the segments end (Good means the result lies within the input and passes the registry), not the tree read. The trees are stated by the LimitsTable path rows.
- ParsePath: its own contract states only Good and the empty-path failure (Good means the result lies within the input and passes the registry), not the tree read. The trees are stated by the LimitsTable path rows.
- ParseField: its own contract states only Good (Good means the result lies within the input and passes the registry), not the tree read. The trees are stated by the LimitsTable path rows.
- OpChain: its own contract states only paired lengths and the empty chain (Good means the result lies within the input and passes the registry), not the tree read. The trees are stated by Printer.QueryRoundTrip and ParserTerms.LeftGrouped.
- OperandChain: its own contract states only progress and bounds (Good means the result lies within the input and passes the registry), not the tree read. The trees are stated by Printer.QueryRoundTrip.
- ParseOperand: its own contract states only Good (Good means the result lies within the input and passes the registry), not the tree read. The trees are stated by Printer.QueryRoundTrip.
- ParseTerm: its own contract states only Good (Good means the result lies within the input and passes the registry), not the tree read. The trees are stated by Printer.TextTerm/IntTerm/FlagTerm/NothingTerm/CallTerm.
- Tails: its own contract states only the empty case and fatality (Good means the result lies within the input and passes the registry), not the tree read. The trees are stated by the LimitsTable bracket rows.
- ParseScoped: its own contract states only Good (Good means the result lies within the input and passes the registry), not the tree read. The trees are stated by ParserFailures.ScopedFails and the LimitsTable bracket rows.
- ParseMethod: its own contract states only Good (Good means the result lies within the input and passes the registry), not the tree read. The trees are stated by ParserFailures.MethodRejected and the LimitsTable bracket rows.
- ParseFunction: its own contract states only Good (Good means the result lies within the input and passes the registry), not the tree read. The trees are stated by Printer.CallTerm and ParserFailures.CallRejected.
- ParseArgs: its own contract states only the recoverable missing-bracket failure (Good means the result lies within the input and passes the registry), not the tree read. The trees are stated by Printer.CallTerm and ParserFailures.BareWord.
- ArgList: its own contract states only bounds and fatality (Good means the result lies within the input and passes the registry), not the tree read. The trees are stated by Printer.CallTerm and ParserFailures.ArgMissing. Its missing-delimiter failure is stated by ParserFailures.ArgsUnclosed.
- ArgsAfter: its own contract states only that the first argument heads the list (Good means the result lies within the input and passes the registry), not the tree read. The trees are stated by the ErrorsTable argument rows. Its missing-delimiter failure is stated by ParserFailures.ArgsUnclosed.
- ParseArg: its own contract states only Good (Good means the result lies within the input and passes the registry), not the tree read. The trees are stated by Printer.CallTerm and ParserFailures.ArgMissing.
- ParseBracket: its own contract states only Good (Good means the result lies within the input and passes the registry), not the tree read. The trees are stated by Printer.QueryRoundTrip and ParserFailures.BracketUnclosed.
- ParseMatch: its own contract states only Good (Good means the result lies within the input and passes the registry), not the tree read. The trees are stated by LimitsTable.MatchExpression and ParserFailures.MatchUnopened.
- MatchBlock: its own contract states only that the target is kept (Good means the result lies within the input and passes the registry), not the tree read. The trees are stated by LimitsTable.MatchExpression and ParserFailures.MatchUnopened.
- Cases: its own contract states only bounds and the registry (Good means the result lies within the input and passes the registry), not the tree read. The trees are stated by LimitsTable.MatchExpression. Its missing-delimiter failure is stated by ParserFailures.CasesUnclosed.
- CasesAfter: its own contract states only the head case (Good means the result lies within the input and passes the registry), not the tree read. The trees are stated by LimitsTable.MatchExpression.
- ParseCase: its own contract states only Good (Good means the result lies within the input and passes the registry), not the tree read. The trees are stated by LimitsTable.MatchExpression. Its missing-delimiter failure is stated by ParserFailures.ArrowMissing.
- ParsePattern: its own contract states only the shape of the result (Good means the result lies within the input and passes the registry), not the tree read. The trees are stated by LimitsTable.MatchExpression.
- CaseResult: its own contract states only bounds (Good means the result lies within the input and passes the registry), not the tree read. The trees are stated by LimitsTable.MatchExpression. Its missing-delimiter failure is stated by ParserFailures.ArrowMissing.
- ParseLiteral: its own contract states only Good (Good means the result lies within the input and passes the registry), not the tree read. The trees are stated by the LiteralTable rows.
- ParseElement: its own contract states only Good (Good means the result lies within the input and passes the registry), not the tree read. The trees are stated by the LiteralTable array rows.
- ParseArray: its own contract states only Good (Good means the result lies within the input and passes the registry), not the tree read. The trees are stated by the LiteralTable array rows and ParserFailures.Unterminated.
- Elements: its own contract states only bounds and the registry (Good means the result lies within the input and passes the registry), not the tree read. The trees are stated by the LiteralTable array rows. Its missing-delimiter failure is stated by ParserFailures.ElementsUnclosed.
- ElementsAfter: its own contract states only the head element (Good means the result lies within the input and passes the registry), not the tree read. The trees are stated by the LiteralTable array rows. Its missing-delimiter failure is stated by ParserFailures.ElementsUnclosed.
- ParseObject: its own contract states only Good (Good means the result lies within the input and passes the registry), not the tree read. The trees are stated by the LiteralTable object rows and ParserFailures.KeyNotString.
- ParseEntry: its own contract states only bounds (Good means the result lies within the input and passes the registry), not the tree read. The trees are stated by the LiteralTable object rows and ParserFailures.KeyNotString.
- EntryValue: its own contract states only that the key is kept (Good means the result lies within the input and passes the registry), not the tree read. The trees are stated by the LiteralTable object rows. Its missing-delimiter failure is stated by ParserFailures.ColonMissing.
- Entries: its own contract states only bounds and the registry (Good means the result lies within the input and passes the registry), not the tree read. The trees are stated by the LiteralTable object rows. Its missing-delimiter failure is stated by ParserFailures.ColonMissing and ParserFailures.EntriesUnclosed.
- EntriesAfter: its own contract states only the head entry (Good means the result lies within the input and passes the registry), not the tree read. The trees are stated by the LiteralTable object rows. Its missing-delimiter failure is stated by ParserFailures.EntriesUnclosed.
- QueryParser.ParseQuery: like the other parse functions, its own contract states only that it stays within the input and passes the registry. The exact results are stated per row by the table lemmas and in general by the ParserFailures and ParserTerms lemmas.
- QueryParser.ParseIn: states the shape of the result, not the tree; the trees are stated per row.
- QueryParser.Parse: like ParseIn, whose current-grammar case it is, its own contract states the shape of the result (payload exactly when there is no error, a proper suffix left, the whole input on failure), not the tree. The trees are stated per row by the ErrorsTable, TailErrorsTable, LimitsTable and LiteralTable lemmas, and for printed fragments by Printer.PrintParses.
- QueryParser.ParseDeprecated: the same as QueryParser.Parse for the legacy grammar; its trees are stated by the legacy rows and by Printer.PrintParses.
