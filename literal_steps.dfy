/**
 * What array and object literals parse to, one element or entry at a time:
 * the success steps that the literal table is built from.
 */
module LiteralSteps {
  import opened Wrappers
  import opened Values
  import opened Ast
  import opened Registry
  import opened Combinators
  import opened Literals
  import opened QueryParser
  import opened ParserSteps
  import opened ParserFailures
  import opened ParserTerms

  /** No scalar starts at an opening bracket, brace or parenthesis. */
  lemma {:induction false} NoScalarAt(s: string, p: nat)
    requires p < |s| && (s[p] == '(' || s[p] == '[' || s[p] == '{')
    ensures ParseScalar(s, p).Fail? && !Fatal(ParseScalar(s, p).err) && ParseScalar(s, p).err.at == p
  {
    if p + 4 <= |s| { assert s[p..p + 4][0] == s[p]; }
    if p + 5 <= |s| { assert s[p..p + 5][0] == s[p]; }
  }

  /** A quoted string without escapes, as an element. */
  lemma {:induction false} StringElement(s: string, p: nat, r: nat, d: bool)
    requires p < r < |s| && s[p] == '"' && s[r] == '"'
    requires forall k | p < k < r :: s[k] != '"' && s[k] != '\\'
    ensures ParseElement(s, p, d) == Ok(Literal(Str(s[p + 1..r])), r + 1)
  {
    QuotedAt(s, p, r);
    ScalarLiteral(s, p, d);
  }

  /** `(` query `)`. */
  lemma {:induction false} BracketParsed(s: string, p: nat, d: bool, b: nat, y: Node, n: nat, c: nat)
    requires p < |s| && s[p] == '(' && SkipBlankAndComments(s, p + 1) == b
    requires ParseQuery(s, b, d) == Ok(y, n) && SkipBlankAndComments(s, n) == c
    requires c < |s| && s[c] == ')'
    ensures ParseBracket(s, p, d) == Ok(y, c + 1)
  {
  }

  /** A bracketed query, as an element. */
  lemma {:induction false} BracketElement(s: string, p: nat, d: bool, y: Node, n: nat)
    requires p < |s| && s[p] == '(' && ParseBracket(s, p, d) == Ok(y, n)
    ensures ParseElement(s, p, d) == Ok(y, n)
  {
    NoScalarAt(s, p);
    var compound := OneOf(ParseArray(s, p, d), ParseObject(s, p, d));
    OneOfSemantics(ParseArray(s, p, d), ParseObject(s, p, d));
    assert compound.Fail? && !Fatal(compound.err);
    OneOfSemantics(Lift(ParseScalar(s, p)), compound);
    var lit := ParseLiteral(s, p, d);
    assert lit.Fail? && !Fatal(lit.err);
    OneOfSemantics(lit, ParseBracket(s, p, d));
  }

  /** `[` elements: the array, as an element and as a term. */
  lemma {:induction false} ArrayParsed(s: string, p: nat, d: bool, q: nat, xs: seq<Node>, m: nat)
    requires p < |s| && s[p] == '[' && SkipBlankAndComments(s, p + 1) == q
    requires !(q < |s| && s[q] == ']') && Elements(s, q, d) == Ok(xs, m)
    ensures ParseElement(s, p, d) == Ok(MakeArray(xs), m)
    ensures ParseTerm(s, p, d) == Ok(MakeArray(xs), m)
  {
    NoScalarAt(s, p);
    NotMatchKeyword(s, p);
    assert ParseArray(s, p, d) == Ok(MakeArray(xs), m);
    assert ParseLiteral(s, p, d) == Ok(MakeArray(xs), m);
  }

  /** `{` entries: the object, as an element and as a term. */
  lemma {:induction false} ObjectParsed(s: string, p: nat, d: bool, q: nat, es: seq<Entry>, m: nat)
    requires p < |s| && s[p] == '{' && SkipBlankAndComments(s, p + 1) == q
    requires !(q < |s| && s[q] == '}') && Entries(s, q, d, p) == Ok(es, m)
    ensures ParseElement(s, p, d) == Ok(MakeObject(es), m)
    ensures ParseTerm(s, p, d) == Ok(MakeObject(es), m)
  {
    NoScalarAt(s, p);
    NotMatchKeyword(s, p);
    assert ParseObject(s, p, d) == Ok(MakeObject(es), m);
    assert ParseLiteral(s, p, d) == Ok(MakeObject(es), m);
  }

  /** The last element, before `]`. */
  lemma {:induction false} ElementsLast(s: string, q: nat, d: bool, x: Node, n: nat, a: nat)
    requires q <= |s| && ParseElement(s, q, d) == Ok(x, n)
    requires SkipBlankAndComments(s, n) == a && a < |s| && s[a] == ']'
    ensures Elements(s, q, d) == Ok([x], a + 1)
  {
    assert [x] + [] == [x];
    ClosingBracketAfter(s, n, d, x, a);
  }

  lemma {:induction false} ClosingBracketAfter(s: string, n: nat, d: bool, x: Node, a: nat)
    requires n <= |s| && Checked(x)
    requires SkipBlankAndComments(s, n) == a && a < |s| && s[a] == ']'
    ensures ElementsAfter(s, n, d, x) == Ok([x], a + 1)
  {
    assert [x] + [] == [x];
  }

  lemma {:induction false} CommaAfter(s: string, n: nat, d: bool, x: Node, a: nat, b: nat, xs: seq<Node>, m: nat)
    requires n <= |s| && Checked(x)
    requires SkipBlankAndComments(s, n) == a && a < |s| && s[a] == ','
    requires SkipBlankAndComments(s, a + 1) == b && Elements(s, b, d) == Ok(xs, m)
    ensures ElementsAfter(s, n, d, x) == Ok([x] + xs, m)
  {
  }

  /** An element, `,`, and the elements after it. */
  lemma {:induction false} ElementsNext(s: string, q: nat, d: bool, x: Node, n: nat, a: nat, b: nat, xs: seq<Node>, m: nat)
    requires q <= |s| && ParseElement(s, q, d) == Ok(x, n)
    requires SkipBlankAndComments(s, n) == a && a < |s| && s[a] == ','
    requires SkipBlankAndComments(s, a + 1) == b && Elements(s, b, d) == Ok(xs, m)
    ensures Elements(s, q, d) == Ok([x] + xs, m)
  {
    CommaAfter(s, n, d, x, a, b, xs, m);
  }

  /** `key: value` with a key that is not a literal of another kind. */
  lemma {:induction false} EntryParsed(s: string, q: nat, d: bool, brace: nat, k: Node, n: nat, a: nat, b: nat, v: Node, m: nat)
    requires brace < q <= |s| && ParseElement(s, q, d) == Ok(k, n)
    requires !(k.Literal? && !k.value.Str?)
    requires SkipBlankAndComments(s, n) == a && a < |s| && s[a] == ':'
    requires SkipBlankAndComments(s, a + 1) == b && ParseElement(s, b, d) == Ok(v, m)
    ensures ParseEntry(s, q, d, brace) == Ok(Entry(k, v), m)
  {
    EntryKey(s, q, d, brace, k, n);
    EntryColon(s, n, d, brace, k, a, b, v, m);
  }

  /** An accepted key hands the rest of the entry to its value. */
  lemma {:induction false} EntryKey(s: string, q: nat, d: bool, brace: nat, k: Node, n: nat)
    requires brace < q <= |s| && ParseElement(s, q, d) == Ok(k, n)
    requires !(k.Literal? && !k.value.Str?)
    ensures q < n <= |s| && Checked(k) && ParseEntry(s, q, d, brace) == EntryValue(s, n, d, brace, k)
  {
  }

  /** A colon, then a value. */
  lemma {:induction false} EntryColon(s: string, n: nat, d: bool, brace: nat, k: Node, a: nat, b: nat, v: Node, m: nat)
    requires brace < n <= |s| && Checked(k)
    requires SkipBlankAndComments(s, n) == a && a < |s| && s[a] == ':'
    requires SkipBlankAndComments(s, a + 1) == b && ParseElement(s, b, d) == Ok(v, m)
    ensures EntryValue(s, n, d, brace, k) == Ok(Entry(k, v), m)
  {
    hide ParseElement, SkipBlankAndComments;
  }

  /** A separator with no blank on either side of it. */
  lemma {:induction false} Tight(s: string, n: nat, b: nat)
    requires b == n + 1 && b < |s| && !IsBlank(s[n]) && s[n] != '#' && !IsBlank(s[b]) && s[b] != '#'
    ensures SkipBlankAndComments(s, n) == n && SkipBlankAndComments(s, b) == b
  {
    SkipNothing(s, n);
    SkipNothing(s, b);
  }

  /** The last entry, before `}`. */
  lemma {:induction false} EntriesLast(s: string, q: nat, d: bool, brace: nat, x: Entry, n: nat, c: nat)
    requires brace < q <= |s| && ParseEntry(s, q, d, brace) == Ok(x, n)
    requires SkipBlankAndComments(s, n) == c && c < |s| && s[c] == '}'
    ensures Entries(s, q, d, brace) == Ok([x], c + 1)
  {
    ClosingBraceAfter(s, n, d, brace, x, c);
  }

  lemma {:induction false} ClosingBraceAfter(s: string, n: nat, d: bool, brace: nat, x: Entry, c: nat)
    requires brace < n <= |s| && EntryChecked(x)
    requires SkipBlankAndComments(s, n) == c && c < |s| && s[c] == '}'
    ensures EntriesAfter(s, n, d, brace, x) == Ok([x], c + 1)
  {
    assert [x] + [] == [x];
  }

  /** A literal operand that ends the input: the whole input is the query. */
  lemma {:induction false} WholeLiteral(s: string, x: Node)
    requires 0 < |s| && SkipBlankAndComments(s, 0) == 0 && ParseTerm(s, 0, false) == Ok(x, |s|)
    ensures Parse(s) == Parsed(Some(x), [], None)
  {
    TailsEnd(s, |s|, false, x);
    TermThenTails(s, 0, false, x, |s|, Ok(x, |s|));
    SingleQuery(s, false, 0, x, |s|);
  }
}
