/**
 * What evaluation promises: element errors of a dynamic array pass through
 * unchanged, a failing object value is reported with its key, folding a
 * static array or object into a literal at parse time does not change what
 * it evaluates to, `+` always yields a Number, `|` falls back only on an
 * error, and a match block fails when no case matches.
 */
module EvaluationProps {
  import opened Wrappers
  import opened Values
  import opened Ast
  import opened QueryParser
  import opened Evaluation

  // ---------------------------------------------------------------------
  // Dynamic arrays

  /** Every element succeeds: the array holds their values in order. */
  lemma {:induction false} ArrayOfValues(es: seq<Node>, ctx: Ctx)
    requires forall i | 0 <= i < |es| :: Exec(es[i], ctx).Success?
    ensures Exec(DynArray(es), ctx).Success?
    ensures var a := Exec(DynArray(es), ctx).value;
      a.Array? && |a.elems| == |es| && forall i | 0 <= i < |es| :: Exec(es[i], ctx) == Success(a.elems[i])
  {
    var r := ExecList(es, ctx);
    assert r.Success?;
  }

  /** The first failing element decides, and its error is not wrapped. */
  lemma {:induction false} ArrayErrorUnwrapped(es: seq<Node>, ctx: Ctx, i: nat)
    requires i < |es| && FirstFailure(es, ctx, i)
    ensures Exec(DynArray(es), ctx) == Failure(Exec(es[i], ctx).error)
  {
    var r := ExecList(es, ctx);
    assert r.Failure?;
    var j :| 0 <= j < |es| && FirstFailure(es, ctx, j) && Exec(es[j], ctx) == Failure(r.error);
    assert i == j;
  }

  // ---------------------------------------------------------------------
  // Dynamic objects

  /** Entry i is the first whose evaluation fails: evaluation stops there
      and reports that entry's error, whatever the fields built so far. */
  lemma {:induction false} EntriesStopAt(es: seq<Entry>, ctx: Ctx, acc: map<string, Value>, i: nat)
    requires i < |es|
    requires forall j | 0 <= j < i :: ExecEntry(es[j], ctx).Success?
    requires ExecEntry(es[i], ctx).Failure?
    ensures ExecEntries(es, ctx, acc) == Failure(ExecEntry(es[i], ctx).error)
    decreases i
  {
    if i > 0 {
      var kv := ExecEntry(es[0], ctx).value;
      assert forall j | 0 <= j < i - 1 :: es[1..][j] == es[j + 1];
      EntriesStopAt(es[1..], ctx, acc[kv.0 := kv.1], i - 1);
    }
  }

  /** A value that fails is reported with the key it belongs to. */
  lemma {:induction false} ObjectValueErrorWrapped(es: seq<Entry>, ctx: Ctx, i: nat, k: string, err: string)
    requires i < |es|
    requires forall j | 0 <= j < i :: ExecEntry(es[j], ctx).Success?
    requires Exec(es[i].key, ctx) == Success(Str(k))
    requires Exec(es[i].val, ctx) == Failure(err)
    ensures Exec(DynObject(es), ctx) == Failure("failed to resolve '" + k + "' value: " + err)
  {
    EntriesStopAt(es, ctx, map[], i);
  }

  /** A key that does not evaluate to a string is an error naming its kind;
      one that fails passes its error on. */
  lemma {:induction false} ObjectKeyErrors(es: seq<Entry>, ctx: Ctx, i: nat)
    requires i < |es|
    requires forall j | 0 <= j < i :: ExecEntry(es[j], ctx).Success?
    requires Exec(es[i].key, ctx).Failure? || !Exec(es[i].key, ctx).value.Str?
    ensures Exec(es[i].key, ctx).Failure? ==> Exec(DynObject(es), ctx) == Failure(Exec(es[i].key, ctx).error)
    ensures Exec(es[i].key, ctx).Success? ==>
              Exec(DynObject(es), ctx) == Failure("object keys must be strings, received: " + KindName(Exec(es[i].key, ctx).value))
  {
    EntriesStopAt(es, ctx, map[], i);
  }

  /** Entries whose keys and values all evaluate add their fields in order,
      a later key overwriting an earlier one. */
  lemma {:induction false} EntriesInOrder(es: seq<Entry>, ctx: Ctx, acc: map<string, Value>)
    requires forall j | 0 <= j < |es| :: ExecEntry(es[j], ctx).Success?
    ensures ExecEntries(es, ctx, acc) == Success(Fields(es, ctx, acc))
    decreases |es|
  {
    if es != [] {
      var kv := ExecEntry(es[0], ctx).value;
      assert forall j | 0 <= j < |es| - 1 :: es[1..][j] == es[j + 1];
      EntriesInOrder(es[1..], ctx, acc[kv.0 := kv.1]);
    }
  }

  /** The reference fold: each evaluated key set to its evaluated value. */
  ghost function Fields(es: seq<Entry>, ctx: Ctx, acc: map<string, Value>): map<string, Value>
    requires forall j | 0 <= j < |es| :: ExecEntry(es[j], ctx).Success?
    decreases |es|
  {
    if es == [] then acc
    else
      var kv := ExecEntry(es[0], ctx).value;
      assert forall j | 0 <= j < |es| - 1 :: es[1..][j] == es[j + 1];
      Fields(es[1..], ctx, acc[kv.0 := kv.1])
  }

  /** The key evaluated first, then the value. */
  lemma {:induction false} EntryKeyThenValue(e: Entry, ctx: Ctx)
    ensures Exec(e.key, ctx).Success? && Exec(e.key, ctx).value.Str? && Exec(e.val, ctx).Success? ==>
              ExecEntry(e, ctx) == Success((Exec(e.key, ctx).value.s, Exec(e.val, ctx).value))
    ensures Exec(e.key, ctx).Failure? ==> ExecEntry(e, ctx) == Failure(Exec(e.key, ctx).error)
  {
  }

  // ---------------------------------------------------------------------
  // Parse-time folding of static structures

  /** A static object evaluates, in any context, to the fields the parser
      folded it into. */
  lemma {:induction false} StaticEntriesEvaluate(es: seq<Entry>, ctx: Ctx, acc: map<string, Value>)
    requires forall i | 0 <= i < |es| :: StaticEntry(es[i])
    ensures ExecEntries(es, ctx, acc) == Success(StaticFields(es, acc))
    decreases |es|
  {
    if es != [] {
      var e := es[0];
      assert StaticEntry(e);
      assert ExecEntry(e, ctx) == Success((e.key.value.s, e.val.value));
      assert forall j | 0 <= j < |es| - 1 :: es[1..][j] == es[j + 1];
      StaticEntriesEvaluate(es[1..], ctx, acc[es[0].key.value.s := es[0].val.value]);
    }
  }

  /** Folding an array of literals into one literal changes nothing. */
  lemma {:induction false} ArrayFoldingSound(ns: seq<Node>, ctx: Ctx)
    ensures Exec(MakeArray(ns), ctx) == Exec(DynArray(ns), ctx)
  {
    if forall i | 0 <= i < |ns| :: ns[i].Literal? {
      ArrayOfValues(ns, ctx);
      var a := Exec(DynArray(ns), ctx).value;
      assert a.elems == MakeArray(ns).value.elems;
    }
  }

  /** Folding a static object into one literal changes nothing. */
  lemma {:induction false} ObjectFoldingSound(es: seq<Entry>, ctx: Ctx)
    ensures Exec(MakeObject(es), ctx) == Exec(DynObject(es), ctx)
  {
    if forall i | 0 <= i < |es| :: StaticEntry(es[i]) {
      StaticEntriesEvaluate(es, ctx, map[]);
    }
  }

  // ---------------------------------------------------------------------
  // Operators

  /** `+` of two numbers is their sum as a Number, an Int64 pair included;
      otherwise the first operand that is not a number is named. */
  lemma {:induction false} AddSemantics(l: Node, r: Node, ctx: Ctx, a: Value, b: Value)
    requires Exec(l, ctx) == Success(a) && Exec(r, ctx) == Success(b)
    ensures IsNumeric(a) && IsNumeric(b) ==> Exec(BinOp(Add, l, r), ctx) == Success(Number(AsReal(a) + AsReal(b)))
    ensures !IsNumeric(a) ==> Exec(BinOp(Add, l, r), ctx) == Failure(ExpectedValueError("number", a))
    ensures IsNumeric(a) && !IsNumeric(b) ==> Exec(BinOp(Add, l, r), ctx) == Failure(ExpectedValueError("number", b))
  {
  }

  /** Arithmetic succeeds exactly on two numbers, short of a division by
      zero, and yields a Number; comparisons need two numbers or two
      strings, `&&` and `||` two booleans, and each yields a Bool. */
  lemma {:induction false} ApplyOutcomes(op: Op, a: Value, b: Value)
    requires op != Coalesce
    ensures var r := Apply(op, a, b);
      && (op in {Add, Sub, Mul, Div} ==>
            (r.Success? <==> IsNumeric(a) && IsNumeric(b) && !(op == Div && AsReal(b) == 0.0)))
      && (op in {Add, Sub, Mul, Div} && r.Success? ==> r.value.Number?)
      && (op !in {Add, Sub, Mul, Div} && r.Success? ==> r.value.Bool?)
      && (op in {Eq, Neq} ==> r.Success?)
      && (op in {Lt, Gt, Le, Ge} ==> (r.Success? <==> (IsNumeric(a) && IsNumeric(b)) || (a.Str? && b.Str?)))
      && (op in {And, Or} ==> (r.Success? <==> a.Bool? && b.Bool?))
  {
  }

  /** An operand that fails makes the operation fail with its error, the
      left one first; `|` is the exception. */
  lemma {:induction false} OperandErrorsPropagate(op: Op, l: Node, r: Node, ctx: Ctx)
    requires op != Coalesce
    ensures Exec(l, ctx).Failure? ==> Exec(BinOp(op, l, r), ctx) == Exec(l, ctx)
    ensures Exec(l, ctx).Success? && Exec(r, ctx).Failure? ==> Exec(BinOp(op, l, r), ctx) == Exec(r, ctx)
  {
  }

  /** `a | b` is a unless a fails, and then b. */
  lemma {:induction false} CoalesceFallsBack(l: Node, r: Node, ctx: Ctx)
    ensures Exec(BinOp(Coalesce, l, r), ctx) == if Exec(l, ctx).Success? then Exec(l, ctx) else Exec(r, ctx)
  {
  }

  // ---------------------------------------------------------------------
  // Match

  /** No case matching the target is an error that names the target. */
  lemma {:induction false} NoCaseMatches(cs: seq<Case>, v: Value, ctx: Ctx)
    requires forall i | 0 <= i < |cs| :: CaseMatches(cs[i], v, ctx) == Success(false)
    ensures ExecCases(cs, v, ctx) == Failure("no match cases matched value: " + Repr(v))
    decreases |cs|
  {
    if cs != [] {
      assert forall j | 0 <= j < |cs| - 1 :: cs[1..][j] == cs[j + 1];
      NoCaseMatches(cs[1..], v, ctx);
    }
  }

  /** The first case that matches decides; the cases after it are not
      looked at. */
  lemma {:induction false} FirstMatchingCase(cs: seq<Case>, v: Value, ctx: Ctx, i: nat)
    requires i < |cs|
    requires forall j | 0 <= j < i :: CaseMatches(cs[j], v, ctx) == Success(false)
    requires CaseMatches(cs[i], v, ctx) == Success(true)
    ensures ExecCases(cs, v, ctx) == Exec(cs[i].result, ctx)
    decreases i
  {
    if i > 0 {
      assert forall j | 0 <= j < i - 1 :: cs[1..][j] == cs[j + 1];
      FirstMatchingCase(cs[1..], v, ctx, i - 1);
    }
  }

  /** The patterns see the target as their context value. */
  lemma {:induction false} MatchScopesTarget(t: Node, cs: seq<Case>, ctx: Ctx)
    ensures Exec(t, ctx).Success? ==>
              Exec(Match(t, cs), ctx) == ExecCases(cs, Exec(t, ctx).value, ctx.(value := Some(Exec(t, ctx).value)))
    ensures Exec(t, ctx).Failure? ==> Exec(Match(t, cs), ctx) == Exec(t, ctx)
  {
  }

  // ---------------------------------------------------------------------
  // Paths

  /** Walking on from null gives null, whatever the segments. */
  lemma {:induction false} WalkNull(segs: seq<string>)
    ensures Walk(Null, segs) == Success(Null)
    decreases |segs|
  {
    if segs != [] {
      WalkNull(segs[1..]);
    }
  }

  /** A missing field is null, not an error, and so is any path under it. */
  lemma {:induction false} MissingFieldIsNull(fields: map<string, Value>, f: string, rest: seq<string>)
    requires f !in fields
    ensures Walk(Object(fields), [f] + rest) == Success(Null)
  {
    assert ([f] + rest)[1..] == rest;
    WalkNull(rest);
  }
}
