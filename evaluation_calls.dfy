/**
 * What the functions and methods of the registry evaluate to, how paths
 * walk through values, which value a repeated object key ends up with and
 * which case of a match block produces the result.
 */
module EvaluationCalls {
  import opened Wrappers
  import opened Values
  import opened Ast
  import opened Evaluation
  import opened EvaluationProps

  // ---------------------------------------------------------------------
  // Functions

  /** `json()` is the content of the current message; an index outside the
      batch and a message without structured content are errors. */
  lemma {:induction false} JsonWhole(ctx: Ctx)
    ensures !(0 <= ctx.index < |ctx.batch|) ==>
      Exec(Function("json", []), ctx) == Failure("json" + ": message index " + IntToString(ctx.index) + " is out of range")
    ensures 0 <= ctx.index < |ctx.batch| && ctx.batch[ctx.index].content.None? ==>
      Exec(Function("json", []), ctx) == Failure("json: message is not structured")
    ensures 0 <= ctx.index < |ctx.batch| && ctx.batch[ctx.index].content.Some? ==>
      Exec(Function("json", []), ctx) == Success(ctx.batch[ctx.index].content.value)
  {
    hide *;
    NoArguments("json", ctx);
    if 0 <= ctx.index < |ctx.batch| {
      JsonInRange(ctx);
    } else {
      JsonOutOfRange(ctx);
    }
  }

  lemma {:induction false} JsonOutOfRange(ctx: Ctx)
    requires !(0 <= ctx.index < |ctx.batch|)
    ensures CallFunction("json", [], ctx) == Failure("json" + ": message index " + IntToString(ctx.index) + " is out of range")
  {
  }

  lemma {:induction false} JsonInRange(ctx: Ctx)
    requires 0 <= ctx.index < |ctx.batch|
    ensures var m := ctx.batch[ctx.index];
      CallFunction("json", [], ctx) == if m.content.None? then Failure("json: message is not structured") else Success(m.content.value)
  {
  }

  /** A call without arguments goes straight to the registry. */
  lemma {:induction false} NoArguments(name: string, ctx: Ctx)
    ensures Exec(Function(name, []), ctx) == CallFunction(name, [], ctx)
  {
    assert ExecList([], ctx) == Success([]);
  }

  /** `json("a.b")` walks the content of the current message along the
      dotted segments of its argument. */
  lemma {:induction false} JsonPath(p: string, ctx: Ctx)
    requires 0 <= ctx.index < |ctx.batch| && ctx.batch[ctx.index].content.Some?
    ensures Exec(Function("json", [Literal(Str(p))]), ctx) == Walk(ctx.batch[ctx.index].content.value, SplitDots(p))
  {
    var r := ExecList([Literal(Str(p))], ctx);
    assert Exec([Literal(Str(p))][0], ctx) == Success(Str(p));
    assert r.Success? && r.value == [Str(p)];
  }

  /** `meta("k")` is the metadata value of k as a string, or null when the
      current message has no such key. */
  lemma {:induction false} MetaKey(k: string, ctx: Ctx)
    requires 0 <= ctx.index < |ctx.batch|
    ensures var md := ctx.batch[ctx.index].metadata;
      Exec(Function("meta", [Literal(Str(k))]), ctx) == Success(if k in md then Str(md[k]) else Null)
  {
    var r := ExecList([Literal(Str(k))], ctx);
    assert Exec([Literal(Str(k))][0], ctx) == Success(Str(k));
    assert r.Success? && r.value == [Str(k)];
  }

  /** A path argument that is not a string is named in the error. */
  lemma {:induction false} PathArgumentMustBeString(name: string, a: Value, ctx: Ctx)
    requires name in {"json", "meta"} && !a.Str?
    requires 0 <= ctx.index < |ctx.batch|
    requires name == "json" ==> ctx.batch[ctx.index].content.Some?
    ensures Exec(Function(name, [Literal(a)]), ctx) == Failure(ExpectedValueError("string", a))
  {
    var r := ExecList([Literal(a)], ctx);
    assert Exec([Literal(a)][0], ctx) == Success(a);
    assert r.Success? && r.value == [a];
  }

  /** A name outside the registry is an error that quotes it. */
  lemma {:induction false} UnknownFunction(name: string, ctx: Ctx)
    requires name !in {"json", "meta"} && 0 <= ctx.index < |ctx.batch|
    ensures Exec(Function(name, []), ctx) == Failure("unrecognised function '" + name + "'")
  {
    NoArguments(name, ctx);
  }

  // ---------------------------------------------------------------------
  // Methods

  /** `t.uppercase()` upper-cases a string target; any other target is an
      error that names it, and a failing target passes its error on. */
  lemma {:induction false} UppercaseMethod(t: Node, ctx: Ctx)
    ensures var r := Exec(t, ctx);
      && (r.Failure? ==> Exec(Method(t, "uppercase", []), ctx) == r)
      && (r.Success? && r.value.Str? ==> Exec(Method(t, "uppercase", []), ctx) == Success(Str(Upper(r.value.s))))
      && (r.Success? && !r.value.Str? ==>
            Exec(Method(t, "uppercase", []), ctx) == Failure(ExpectedValueError("string", r.value)))
  {
  }

  /** Upper-casing maps each lower-case ASCII letter to its capital and
      leaves every other character alone, so no lower-case letter is left. */
  lemma {:induction false} UpperCases(s: string)
    ensures forall k | 0 <= k < |s| :: 'a' <= s[k] <= 'z' ==> Upper(s)[k] as int == s[k] as int - 32
    ensures forall k | 0 <= k < |s| :: !('a' <= s[k] <= 'z') ==> Upper(s)[k] == s[k]
    ensures forall k | 0 <= k < |s| :: !('a' <= Upper(s)[k] <= 'z')
  {
    forall k | 0 <= k < |s| ensures !('a' <= Upper(s)[k] <= 'z') {
      assert Upper(s)[k] == UpperChar(s[k]);
    }
  }

  /** Upper-casing twice is upper-casing once. */
  lemma {:induction false} UpperIdempotent(s: string)
    ensures Upper(Upper(s)) == Upper(s)
  {
    UpperCases(s);
    var u := Upper(s);
    assert forall k | 0 <= k < |u| :: Upper(u)[k] == UpperChar(u[k]) == u[k];
  }

  /** `t.map(q)` evaluates q with the target's value as context. */
  lemma {:induction false} MapMethod(t: Node, q: Node, ctx: Ctx)
    ensures var r := Exec(t, ctx);
      && (r.Failure? ==> Exec(Method(t, "map", [q]), ctx) == r)
      && (r.Success? ==> Exec(Method(t, "map", [q]), ctx) == Exec(q, ctx.(value := Some(r.value))))
  {
  }

  /** Mapping with the empty path `this` gives the target back. */
  lemma {:induction false} MapThis(t: Node, ctx: Ctx)
    ensures Exec(Method(t, "map", [Path([])]), ctx) == Exec(t, ctx)
  {
    var r := Exec(t, ctx);
    if r.Success? {
      var c := ctx.(value := Some(r.value));
      assert Root(c) == Success(r.value);
      assert Exec(Path([]), c) == Walk(r.value, []);
    }
  }

  /** `t.from(i)` evaluates t against message i instead of the current one,
      and no longer relative to a context value; the index must be an int. */
  lemma {:induction false} FromMethod(t: Node, a: Node, ctx: Ctx)
    ensures var r := Exec(a, ctx);
      && (r.Failure? ==> Exec(Method(t, "from", [a]), ctx) == r)
      && (r.Success? && r.value.Int64? ==>
            Exec(Method(t, "from", [a]), ctx) == Exec(t, ctx.(index := r.value.i, value := None)))
      && (r.Success? && !r.value.Int64? ==>
            Exec(Method(t, "from", [a]), ctx) == Failure(ExpectedValueError("int", r.value)))
  {
  }

  /** `json().from(i)` is the content of message i. */
  lemma {:induction false} FromReadsMessage(i: int, ctx: Ctx)
    requires 0 <= i < |ctx.batch| && ctx.batch[i].content.Some?
    ensures Exec(Method(Function("json", []), "from", [Literal(Int64(i))]), ctx) == Success(ctx.batch[i].content.value)
  {
    FromMethod(Function("json", []), Literal(Int64(i)), ctx);
    JsonWhole(ctx.(index := i, value := None));
  }

  /** Every message succeeding, `from_all` collects their values in batch
      order. */
  lemma {:induction false} FromAllCollects(t: Node, ctx: Ctx, i: nat)
    requires i <= |ctx.batch|
    requires forall j | i <= j < |ctx.batch| :: Exec(t, ctx.(index := j, value := None)).Success?
    ensures var r := FromAll(t, ctx, i);
      && r.Success? && |r.value| == |ctx.batch| - i
      && forall j | i <= j < |ctx.batch| :: Exec(t, ctx.(index := j, value := None)) == Success(r.value[j - i])
    decreases |ctx.batch| - i
  {
    if i < |ctx.batch| {
      FromAllCollects(t, ctx, i + 1);
    }
  }

  /** The first message for which the target fails decides. */
  lemma {:induction false} FromAllStopsAt(t: Node, ctx: Ctx, i: nat, j: nat)
    requires i <= j < |ctx.batch|
    requires forall m | i <= m < j :: Exec(t, ctx.(index := m, value := None)).Success?
    requires Exec(t, ctx.(index := j, value := None)).Failure?
    ensures FromAll(t, ctx, i) == Failure(Exec(t, ctx.(index := j, value := None)).error)
    decreases j - i
  {
    if i < j {
      FromAllStopsAt(t, ctx, i + 1, j);
    }
  }

  /** `t.from_all()` is the array of t evaluated against every message. */
  lemma {:induction false} FromAllMethod(t: Node, ctx: Ctx)
    requires forall j | 0 <= j < |ctx.batch| :: Exec(t, ctx.(index := j, value := None)).Success?
    ensures var r := Exec(Method(t, "from_all", []), ctx);
      && r.Success? && r.value.Array? && |r.value.elems| == |ctx.batch|
      && forall j | 0 <= j < |ctx.batch| :: Exec(t, ctx.(index := j, value := None)) == Success(r.value.elems[j])
  {
    FromAllCollects(t, ctx, 0);
  }

  /** A name outside the registry, or a known one with the wrong number of
      arguments, is an error that quotes it. */
  lemma {:induction false} UnknownMethod(t: Node, name: string, args: seq<Node>, ctx: Ctx)
    requires !(name in {"map", "from"} && |args| == 1) && !(name in {"from_all", "uppercase"} && args == [])
    ensures Exec(Method(t, name, args), ctx) == Failure("unrecognised method '" + name + "'")
  {
  }

  // ---------------------------------------------------------------------
  // Paths

  /** Walking a concatenation walks the first part, then the second from
      where it arrived. */
  lemma {:induction false} WalkAppend(v: Value, a: seq<string>, b: seq<string>)
    ensures Walk(v, a + b) == match Walk(v, a) case Failure(e) => Failure(e) case Success(w) => Walk(w, b)
    decreases |a|
  {
    if a == [] {
      assert a + b == b;
    } else {
      assert (a + b)[0] == a[0] && (a + b)[1..] == a[1..] + b;
      match Field(v, a[0])
      case Failure(_) =>
      case Success(w) => WalkAppend(w, a[1..], b);
    }
  }

  /** A step into a scalar that is not null is an error that names it. */
  lemma {:induction false} WalkScalarFails(v: Value, segs: seq<string>)
    requires segs != [] && !v.Object? && !v.Null?
    ensures Walk(v, segs) == Failure(ExpectedValueError("object", v))
  {
  }

  /** A present field is followed into its value. */
  lemma {:induction false} WalkIntoField(fields: map<string, Value>, f: string, rest: seq<string>)
    requires f in fields
    ensures Walk(Object(fields), [f] + rest) == Walk(fields[f], rest)
  {
    assert ([f] + rest)[0] == f && ([f] + rest)[1..] == rest;
  }

  /** Inside a method chain, scoped query or match a path is relative to the
      context value. */
  lemma {:induction false} PathRelativeToValue(segs: seq<string>, ctx: Ctx)
    requires ctx.value.Some?
    ensures Exec(Path(segs), ctx) == Walk(ctx.value.value, segs)
  {
  }

  /** Outside one it is relative to the content of the current message. */
  lemma {:induction false} PathRelativeToMessage(segs: seq<string>, ctx: Ctx)
    requires ctx.value.None? && 0 <= ctx.index < |ctx.batch|
    ensures ctx.batch[ctx.index].content.Some? ==>
      Exec(Path(segs), ctx) == Walk(ctx.batch[ctx.index].content.value, segs)
    ensures ctx.batch[ctx.index].content.None? ==>
      Exec(Path(segs), ctx) == Failure("path: message is not structured")
  {
  }

  // ---------------------------------------------------------------------
  // Objects: which value a key ends up with

  /** The key entry j evaluates to. */
  ghost function KeyOf(es: seq<Entry>, ctx: Ctx, j: nat): string
    requires j < |es| && ExecEntry(es[j], ctx).Success?
  {
    ExecEntry(es[j], ctx).value.0
  }

  /** A key no entry sets keeps what the fields built so far say about it. */
  lemma {:induction false} FieldsKeep(es: seq<Entry>, ctx: Ctx, acc: map<string, Value>, k: string)
    requires forall j | 0 <= j < |es| :: ExecEntry(es[j], ctx).Success?
    requires forall j | 0 <= j < |es| :: KeyOf(es, ctx, j) != k
    ensures k in Fields(es, ctx, acc) <==> k in acc
    ensures k in acc ==> Fields(es, ctx, acc)[k] == acc[k]
    decreases |es|
  {
    if es != [] {
      var kv := ExecEntry(es[0], ctx).value;
      assert KeyOf(es, ctx, 0) == kv.0;
      forall j | 0 <= j < |es| - 1
        ensures ExecEntry(es[1..][j], ctx).Success? && KeyOf(es[1..], ctx, j) != k
      {
        assert es[1..][j] == es[j + 1];
        assert KeyOf(es, ctx, j + 1) != k;
      }
      FieldsKeep(es[1..], ctx, acc[kv.0 := kv.1], k);
    }
  }

  /** The last entry with a given key decides its value. */
  lemma {:induction false} FieldsLastWins(es: seq<Entry>, ctx: Ctx, acc: map<string, Value>, i: nat)
    requires forall j | 0 <= j < |es| :: ExecEntry(es[j], ctx).Success?
    requires i < |es|
    requires forall j | i < j < |es| :: KeyOf(es, ctx, j) != KeyOf(es, ctx, i)
    ensures var kv := ExecEntry(es[i], ctx).value;
      kv.0 in Fields(es, ctx, acc) && Fields(es, ctx, acc)[kv.0] == kv.1
    decreases i
  {
    var kv0 := ExecEntry(es[0], ctx).value;
    var tail := es[1..];
    forall j | 0 <= j < |tail| ensures ExecEntry(tail[j], ctx).Success? {
      assert tail[j] == es[j + 1];
    }
    if i == 0 {
      forall j | 0 <= j < |tail| ensures KeyOf(tail, ctx, j) != kv0.0 {
        assert tail[j] == es[j + 1];
        assert KeyOf(es, ctx, j + 1) != KeyOf(es, ctx, 0);
      }
      FieldsKeep(tail, ctx, acc[kv0.0 := kv0.1], kv0.0);
    } else {
      assert tail[i - 1] == es[i];
      forall j | i - 1 < j < |tail| ensures KeyOf(tail, ctx, j) != KeyOf(tail, ctx, i - 1) {
        assert tail[j] == es[j + 1];
        assert KeyOf(es, ctx, j + 1) != KeyOf(es, ctx, i);
      }
      FieldsLastWins(tail, ctx, acc[kv0.0 := kv0.1], i - 1);
    }
  }

  /** A dynamic object whose entries all succeed holds, for each key, the
      value of the last entry that sets it. */
  lemma {:induction false} ObjectLastKeyWins(es: seq<Entry>, ctx: Ctx, i: nat)
    requires forall j | 0 <= j < |es| :: ExecEntry(es[j], ctx).Success?
    requires i < |es|
    requires forall j | i < j < |es| :: KeyOf(es, ctx, j) != KeyOf(es, ctx, i)
    ensures var r, kv := Exec(DynObject(es), ctx), ExecEntry(es[i], ctx).value;
      r.Success? && r.value.Object? && kv.0 in r.value.fields && r.value.fields[kv.0] == kv.1
  {
    EntriesInOrder(es, ctx, map[]);
    FieldsLastWins(es, ctx, map[], i);
  }

  /** A dynamic object has no field that none of its entries sets. */
  lemma {:induction false} ObjectOnlyItsKeys(es: seq<Entry>, ctx: Ctx, k: string)
    requires forall j | 0 <= j < |es| :: ExecEntry(es[j], ctx).Success?
    requires forall j | 0 <= j < |es| :: KeyOf(es, ctx, j) != k
    ensures var r := Exec(DynObject(es), ctx);
      r.Success? && r.value.Object? && k !in r.value.fields
  {
    EntriesInOrder(es, ctx, map[]);
    FieldsKeep(es, ctx, map[], k);
  }

  // ---------------------------------------------------------------------
  // Match

  /** Case i is the first whose pattern matches: every pattern before it
      evaluated to false. */
  ghost predicate FirstMatch(cs: seq<Case>, v: Value, ctx: Ctx, i: nat) {
    && i < |cs|
    && (forall j | 0 <= j < i :: CaseMatches(cs[j], v, ctx) == Success(false))
    && CaseMatches(cs[i], v, ctx) == Success(true)
  }

  /** A match block that succeeds does so through the first case whose
      pattern matched. */
  lemma {:induction false} CasesSucceedThroughFirstMatch(cs: seq<Case>, v: Value, ctx: Ctx)
    requires ExecCases(cs, v, ctx).Success?
    ensures exists i | 0 <= i < |cs| :: FirstMatch(cs, v, ctx, i) && ExecCases(cs, v, ctx) == Exec(cs[i].result, ctx)
    decreases |cs|
  {
    hide *;
    CasesStep(cs, v, ctx);
    var m := CaseMatches(cs[0], v, ctx);
    if m == Success(true) {
      FirstMatchHead(cs, v, ctx);
    } else {
      assert m == Success(false) by {
        if m.Success? { assert m.value != true; }
      }
      var tail := cs[1..];
      CasesSucceedThroughFirstMatch(tail, v, ctx);
      var i :| 0 <= i < |tail| && FirstMatch(tail, v, ctx, i) && ExecCases(tail, v, ctx) == Exec(tail[i].result, ctx);
      FirstMatchShift(cs, v, ctx, i);
    }
  }

  lemma {:induction false} FirstMatchHead(cs: seq<Case>, v: Value, ctx: Ctx)
    requires cs != [] && CaseMatches(cs[0], v, ctx) == Success(true)
    ensures FirstMatch(cs, v, ctx, 0)
  {
  }

  /** Behind a case that does not match, the first match moves one on. */
  lemma {:induction false} FirstMatchShift(cs: seq<Case>, v: Value, ctx: Ctx, i: nat)
    requires cs != [] && CaseMatches(cs[0], v, ctx) == Success(false)
    requires FirstMatch(cs[1..], v, ctx, i)
    ensures FirstMatch(cs, v, ctx, i + 1) && cs[i + 1] == cs[1..][i]
  {
    forall j | 0 <= j < i + 1 ensures CaseMatches(cs[j], v, ctx) == Success(false) {
      if j > 0 { assert cs[j] == cs[1..][j - 1]; }
    }
  }

  /** One case looked at: no cases left fails, a match decides, a miss
      moves on and a pattern that fails fails the block. */
  lemma {:induction false} CasesStep(cs: seq<Case>, v: Value, ctx: Ctx)
    ensures cs == [] ==> ExecCases(cs, v, ctx).Failure?
    ensures cs != [] && CaseMatches(cs[0], v, ctx) == Success(true) ==> ExecCases(cs, v, ctx) == Exec(cs[0].result, ctx)
    ensures cs != [] && CaseMatches(cs[0], v, ctx) == Success(false) ==> ExecCases(cs, v, ctx) == ExecCases(cs[1..], v, ctx)
    ensures cs != [] && CaseMatches(cs[0], v, ctx).Failure? ==> ExecCases(cs, v, ctx).Failure?
  {
  }

  /** `_` always matches, and a literal pattern matches by value equality. */
  lemma {:induction false} PatternKinds(r: Node, w: Value, v: Value, ctx: Ctx)
    ensures CaseMatches(Case(Wildcard, r), v, ctx) == Success(true)
    ensures CaseMatches(Case(Test(Literal(w)), r), v, ctx) == Success(ValueEq(v, w))
  {
  }

  /** `==` does not depend on the order of its operands. */
  lemma {:induction false} EqSymmetric(a: Value, b: Value)
    ensures Apply(Eq, a, b) == Apply(Eq, b, a)
    ensures Apply(Neq, a, b) == Apply(Neq, b, a)
  {
  }
}
