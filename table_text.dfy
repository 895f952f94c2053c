/**
 * What the table rows share: the inputs they are stated over and the calls
 * that recur in them.
 */
module TableText {
  import opened Values
  import opened Ast
  import opened Registry
  import opened Combinators
  import opened QueryParser
  import opened ParserSteps

  const JsonFoo := Function("json", [Literal(Str("foo"))])
  const MetaBar := Function("meta", [Literal(Str("bar"))])

  /** s consists of the characters of w. */
  predicate Is(s: string, w: string) {
    |s| == |w| && forall k {:trigger s[k]} | 0 <= k < |w| :: s[k] == w[k]
  }

  /** s holds the characters of w from offset p on. */
  predicate IsAt(s: string, p: nat, w: string) {
    p + |w| <= |s| && Is(s[p..p + |w|], w)
  }

  lemma {:induction false} Whole(s: string, w: string)
    requires Is(s, w)
    ensures IsAt(s, 0, w)
  {
    assert s[0..|w|] == s;
  }

  /** The two halves of a concatenation sit side by side. */
  lemma {:induction false} Split(s: string, p: nat, a: string, b: string)
    requires IsAt(s, p, a + b)
    ensures IsAt(s, p, a) && IsAt(s, p + |a|, b)
  {
    var whole := s[p..p + |a + b|];
    forall k | 0 <= k < |a| ensures s[p..p + |a|][k] == a[k] {
      assert s[p..p + |a|][k] == whole[k] && (a + b)[k] == a[k];
    }
    forall k | 0 <= k < |b| ensures s[p + |a|..p + |a| + |b|][k] == b[k] {
      assert s[p + |a|..p + |a| + |b|][k] == whole[|a| + k] && (a + b)[|a| + k] == b[k];
    }
  }

  /** One character of a placed word. */
  lemma {:induction false} CharOf(s: string, p: nat, w: string, k: nat)
    requires IsAt(s, p, w) && k < |w|
    ensures s[p + k] == w[k]
  {
    assert s[p..p + |w|][k] == s[p + k];
  }

  /** A placed word that ends the input is what is left from its offset. */
  lemma {:induction false} RestIs(s: string, m: nat, w: string)
    requires IsAt(s, m, w) && m + |w| == |s|
    ensures s[m..] == w
  {
    assert s[m..] == s[m..m + |w|];
  }

  /** A placed word is the slice it covers. */
  lemma {:induction false} SliceIs(s: string, p: nat, w: string)
    requires IsAt(s, p, w)
    ensures s[p..p + |w|] == w
  {
  }

  /** The name `json` at p. */
  lemma {:induction false} JsonAt(s: string, p: nat, q: nat)
    requires q == p + 4 && q <= |s| && s[p] == 'j' && s[p + 1] == 's' && s[p + 2] == 'o' && s[p + 3] == 'n'
    ensures s[p..q] == "json"
  {
  }

  /** The name `meta` at p. */
  lemma {:induction false} MetaAt(s: string, p: nat, q: nat)
    requires q == p + 4 && q <= |s| && s[p] == 'm' && s[p + 1] == 'e' && s[p + 2] == 't' && s[p + 3] == 'a'
    ensures s[p..q] == "meta"
  {
  }

  /** The word `foo` at p. */
  lemma {:induction false} FooAt(s: string, p: nat, q: nat)
    requires q == p + 3 && q <= |s| && s[p] == 'f' && s[p + 1] == 'o' && s[p + 2] == 'o'
    ensures s[p..q] == "foo"
  {
  }

  /** The word `bar` at p. */
  lemma {:induction false} BarAt(s: string, p: nat, q: nat)
    requires q == p + 3 && q <= |s| && s[p] == 'b' && s[p + 1] == 'a' && s[p + 2] == 'r'
    ensures s[p..q] == "bar"
  {
  }

  /** The word `false` at p. */
  lemma {:induction false} FalseAt(s: string, p: nat, q: nat)
    requires q == p + 5 && q <= |s|
    requires s[p] == 'f' && s[p + 1] == 'a' && s[p + 2] == 'l' && s[p + 3] == 's' && s[p + 4] == 'e'
    ensures s[p..q] == "false"
  {
  }

  /** The word `foobar` at p. */
  lemma {:induction false} FoobarAt(s: string, p: nat, q: nat)
    requires q == p + 6 && q <= |s|
    requires s[p] == 'f' && s[p + 1] == 'o' && s[p + 2] == 'o' && s[p + 3] == 'b' && s[p + 4] == 'a' && s[p + 5] == 'r'
    ensures s[p..q] == "foobar"
  {
  }

  /** The word `from` at p. */
  lemma {:induction false} FromAt(s: string, p: nat, q: nat)
    requires q == p + 4 && q <= |s|
    requires s[p] == 'f' && s[p + 1] == 'r' && s[p + 2] == 'o' && s[p + 3] == 'm'
    ensures s[p..q] == "from"
  {
  }

  /** The word `map` at p. */
  lemma {:induction false} MapAt(s: string, p: nat, q: nat)
    requires q == p + 3 && q <= |s|
    requires s[p] == 'm' && s[p + 1] == 'a' && s[p + 2] == 'p'
    ensures s[p..q] == "map"
  {
  }

  /** The word `match` at p. */
  lemma {:induction false} MatchAt(s: string, p: nat, q: nat)
    requires q == p + 5 && q <= |s|
    requires s[p] == 'm' && s[p + 1] == 'a' && s[p + 2] == 't' && s[p + 3] == 'c' && s[p + 4] == 'h'
    ensures s[p..q] == "match"
  {
  }

  /** The word `nah` at p. */
  lemma {:induction false} NahAt(s: string, p: nat, q: nat)
    requires q == p + 3 && q <= |s|
    requires s[p] == 'n' && s[p + 1] == 'a' && s[p + 2] == 'h'
    ensures s[p..q] == "nah"
  {
  }

  /** The word `not a number` at p. */
  lemma {:induction false} NotANumberAt(s: string, p: nat, q: nat)
    requires q == p + 12 && q <= |s|
    requires s[p] == 'n' && s[p + 1] == 'o' && s[p + 2] == 't' && s[p + 3] == ' ' && s[p + 4] == 'a' && s[p + 5] == ' ' && s[p + 6] == 'n' && s[p + 7] == 'u' && s[p + 8] == 'm' && s[p + 9] == 'b' && s[p + 10] == 'e' && s[p + 11] == 'r'
    ensures s[p..q] == "not a number"
  {
  }

  /** The word `not_a_function` at p. */
  lemma {:induction false} NotAFunctionAt(s: string, p: nat, q: nat)
    requires q == p + 14 && q <= |s|
    requires s[p] == 'n' && s[p + 1] == 'o' && s[p + 2] == 't' && s[p + 3] == '_' && s[p + 4] == 'a' && s[p + 5] == '_' && s[p + 6] == 'f' && s[p + 7] == 'u' && s[p + 8] == 'n' && s[p + 9] == 'c' && s[p + 10] == 't' && s[p + 11] == 'i' && s[p + 12] == 'o' && s[p + 13] == 'n'
    ensures s[p..q] == "not_a_function"
  {
  }

  /** The word `not_a_thing` at p. */
  lemma {:induction false} NotAThingAt(s: string, p: nat, q: nat)
    requires q == p + 11 && q <= |s|
    requires s[p] == 'n' && s[p + 1] == 'o' && s[p + 2] == 't' && s[p + 3] == '_' && s[p + 4] == 'a' && s[p + 5] == '_' && s[p + 6] == 't' && s[p + 7] == 'h' && s[p + 8] == 'i' && s[p + 9] == 'n' && s[p + 10] == 'g'
    ensures s[p..q] == "not_a_thing"
  {
  }

  /** The word `null` at p. */
  lemma {:induction false} NullAt(s: string, p: nat, q: nat)
    requires q == p + 4 && q <= |s|
    requires s[p] == 'n' && s[p + 1] == 'u' && s[p + 2] == 'l' && s[p + 3] == 'l'
    ensures s[p..q] == "null"
  {
  }

  /** The word `uppercase` at p. */
  lemma {:induction false} UppercaseAt(s: string, p: nat, q: nat)
    requires q == p + 9 && q <= |s|
    requires s[p] == 'u' && s[p + 1] == 'p' && s[p + 2] == 'p' && s[p + 3] == 'e' && s[p + 4] == 'r' && s[p + 5] == 'c' && s[p + 6] == 'a' && s[p + 7] == 's' && s[p + 8] == 'e'
    ensures s[p..q] == "uppercase"
  {
  }

  /** Both calls pass the registry's checks. */
  lemma {:induction false} CallsChecked()
    ensures Checked(JsonFoo) && Checked(MetaBar)
  {
    assert LiteralArgError([StringParam], [Literal(Str("foo"))], 1).None?;
    assert LiteralArgError([StringParam], [Literal(Str("bar"))], 1).None?;
  }

  /** `json("foo")` at the start of the input. */
  lemma {:induction false} JsonFooFirst(s: string, d: bool)
    requires 11 <= |s| && s[0..4] == "json" && s[4] == '(' && s[5] == '"'
    requires s[6..9] == "foo" && s[9] == '"' && s[10] == ')'
    ensures ParseTerm(s, 0, d) == Ok(JsonFoo, 11)
  {
    StringCall(s, 0, "json", "foo", d);
  }
}
