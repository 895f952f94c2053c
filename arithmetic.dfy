/**
 * Precedence resolution: the expression parser reads a flat chain
 * `x0 op1 x1 op2 x2 ...` and this module turns it into a tree in which
 * tighter operators sit lower and equal operators associate to the left.
 */
module Arithmetic {
  import opened Ast

  datatype Tree = Leaf(node: Node) | Bin(op: Op, left: Tree, right: Tree)

  /** The operands of a tree, left to right. */
  function Leaves(t: Tree): seq<Node> {
    match t
    case Leaf(n) => [n]
    case Bin(_, l, r) => Leaves(l) + Leaves(r)
  }

  /** The operators of a tree, left to right. */
  function Ops(t: Tree): seq<Op> {
    match t
    case Leaf(_) => []
    case Bin(o, l, r) => Ops(l) + [o] + Ops(r)
  }

  lemma {:induction false} LeavesOutnumberOps(t: Tree)
    ensures |Leaves(t)| == |Ops(t)| + 1
  {
    match t
    case Leaf(_) =>
    case Bin(_, l, r) => LeavesOutnumberOps(l); LeavesOutnumberOps(r);
  }

  /** Every operator binds at least as tightly as its ancestor when it is in
      the left subtree, and strictly more tightly when in the right one. */
  predicate Ordered(t: Tree) {
    match t
    case Leaf(_) => true
    case Bin(o, l, r) =>
      && (forall k | 0 <= k < |Ops(l)| :: Prec(Ops(l)[k]) >= Prec(o))
      && (forall k | 0 <= k < |Ops(r)| :: Prec(Ops(r)[k]) > Prec(o))
      && Ordered(l) && Ordered(r)
  }

  /** The last operator of the loosest precedence: the root of the tree. */
  function SplitIndex(ops: seq<Op>): (i: nat)
    requires |ops| > 0
    ensures i < |ops|
    decreases |ops|
  {
    if |ops| == 1 then 0
    else
      var k := SplitIndex(ops[..|ops| - 1]);
      if Prec(ops[|ops| - 1]) <= Prec(ops[k]) then |ops| - 1 else k
  }

  lemma {:induction false} SplitIndexIsSplit(ops: seq<Op>)
    requires |ops| > 0
    ensures IsSplit(ops, SplitIndex(ops))
    decreases |ops|
  {
    if |ops| > 1 {
      var init := ops[..|ops| - 1];
      SplitIndexIsSplit(init);
      var k := SplitIndex(init);
      assert forall j | 0 <= j < |init| :: init[j] == ops[j];
    }
  }

  /** i is the last position of the loosest operator. */
  predicate IsSplit(ops: seq<Op>, i: nat)
    requires i < |ops|
  {
    && (forall j | 0 <= j < |ops| :: Prec(ops[i]) <= Prec(ops[j]))
    && (forall j | i < j < |ops| :: Prec(ops[i]) < Prec(ops[j]))
  }

  function Resolve(xs: seq<Node>, ops: seq<Op>): Tree
    requires |xs| == |ops| + 1
    decreases |ops|
  {
    if |ops| == 0 then Leaf(xs[0])
    else
      var i := SplitIndex(ops);
      Bin(ops[i], Resolve(xs[..i + 1], ops[..i]), Resolve(xs[i + 1..], ops[i + 1..]))
  }

  /** Resolution keeps the operands and operators, in their order. */
  lemma {:induction false} ResolveKeepsChain(xs: seq<Node>, ops: seq<Op>)
    requires |xs| == |ops| + 1
    ensures Leaves(Resolve(xs, ops)) == xs && Ops(Resolve(xs, ops)) == ops
  {
    ResolveKeepsLeaves(xs, ops);
    ResolveKeepsOps(xs, ops);
  }

  lemma {:induction false} ResolveKeepsLeaves(xs: seq<Node>, ops: seq<Op>)
    requires |xs| == |ops| + 1
    ensures Leaves(Resolve(xs, ops)) == xs
    decreases |ops|
  {
    if |ops| > 0 {
      var i := SplitIndex(ops);
      var xl, xr := xs[..i + 1], xs[i + 1..];
      ResolveKeepsLeaves(xl, ops[..i]);
      ResolveKeepsLeaves(xr, ops[i + 1..]);
      assert xl + xr == xs;
    }
  }

  lemma {:induction false} ResolveKeepsOps(xs: seq<Node>, ops: seq<Op>)
    requires |xs| == |ops| + 1
    ensures Ops(Resolve(xs, ops)) == ops
    decreases |ops|
  {
    if |ops| > 0 {
      var i := SplitIndex(ops);
      var l, r := Resolve(xs[..i + 1], ops[..i]), Resolve(xs[i + 1..], ops[i + 1..]);
      ResolveRoot(xs, ops);
      ResolveKeepsOps(xs[..i + 1], ops[..i]);
      ResolveKeepsOps(xs[i + 1..], ops[i + 1..]);
      OpsAround(ops[i], l, r, ops, i);
    }
  }

  /** The root of a resolved chain is its split operator. */
  lemma {:induction false} ResolveRoot(xs: seq<Node>, ops: seq<Op>)
    requires |xs| == |ops| + 1 && |ops| > 0
    ensures Resolve(xs, ops) == Bin(ops[SplitIndex(ops)],
      Resolve(xs[..SplitIndex(ops) + 1], ops[..SplitIndex(ops)]),
      Resolve(xs[SplitIndex(ops) + 1..], ops[SplitIndex(ops) + 1..]))
  {
  }

  /** A node whose halves carry the operators on either side of position i
      carries the whole sequence. */
  lemma {:induction false} OpsAround(o: Op, l: Tree, r: Tree, ops: seq<Op>, i: nat)
    requires i < |ops| && o == ops[i] && Ops(l) == ops[..i] && Ops(r) == ops[i + 1..]
    ensures Ops(Bin(o, l, r)) == ops
  {
    assert ops[..i] + [ops[i]] + ops[i + 1..] == ops;
  }

  /** Resolution respects precedence and left associativity. */
  lemma {:induction false} ResolveOrdered(xs: seq<Node>, ops: seq<Op>)
    requires |xs| == |ops| + 1
    ensures Ordered(Resolve(xs, ops))
    decreases |ops|
  {
    if |ops| > 0 {
      var i := SplitIndex(ops);
      ResolveOrdered(xs[..i + 1], ops[..i]);
      ResolveOrdered(xs[i + 1..], ops[i + 1..]);
      SplitOrdered(xs, ops);
    }
  }

  /** Splitting at the loosest operator orders the root over two ordered
      halves. */
  lemma {:induction false} SplitOrdered(xs: seq<Node>, ops: seq<Op>)
    requires |xs| == |ops| + 1 && |ops| > 0
    requires Ordered(Resolve(xs[..SplitIndex(ops) + 1], ops[..SplitIndex(ops)]))
    requires Ordered(Resolve(xs[SplitIndex(ops) + 1..], ops[SplitIndex(ops) + 1..]))
    ensures Ordered(Resolve(xs, ops))
  {
    var i := SplitIndex(ops);
    var l, r := Resolve(xs[..i + 1], ops[..i]), Resolve(xs[i + 1..], ops[i + 1..]);
    ResolveRoot(xs, ops);
    ResolveKeepsOps(xs[..i + 1], ops[..i]);
    ResolveKeepsOps(xs[i + 1..], ops[i + 1..]);
    SplitIndexIsSplit(ops);
    SplitBounds(ops, i, ops[..i], ops[i + 1..]);
    BinOrdered(ops[i], l, r, ops[..i], ops[i + 1..]);
  }

  /** Around a split, the operators before it bind at least as tightly and
      those after it strictly more tightly. */
  lemma {:induction false} SplitBounds(ops: seq<Op>, i: nat, ol: seq<Op>, or: seq<Op>)
    requires i < |ops| && IsSplit(ops, i) && ol == ops[..i] && or == ops[i + 1..]
    ensures forall k | 0 <= k < |ol| :: Prec(ol[k]) >= Prec(ops[i])
    ensures forall k | 0 <= k < |or| :: Prec(or[k]) > Prec(ops[i])
  {
    forall k | 0 <= k < |ol| ensures Prec(ol[k]) >= Prec(ops[i]) {
      assert ol[k] == ops[k];
    }
    forall k | 0 <= k < |or| ensures Prec(or[k]) > Prec(ops[i]) {
      assert or[k] == ops[i + 1 + k];
    }
  }

  /** A node is ordered when its halves are and their operators bind tightly
      enough. */
  lemma {:induction false} BinOrdered(o: Op, l: Tree, r: Tree, ol: seq<Op>, or: seq<Op>)
    requires Ops(l) == ol && Ops(r) == or && Ordered(l) && Ordered(r)
    requires forall k | 0 <= k < |ol| :: Prec(ol[k]) >= Prec(o)
    requires forall k | 0 <= k < |or| :: Prec(or[k]) > Prec(o)
    ensures Ordered(Bin(o, l, r))
  {
  }

  /** The split position is unique. */
  lemma {:induction false} SplitUnique(ops: seq<Op>, i: nat, k: nat)
    requires i < |ops| && k < |ops|
    requires IsSplit(ops, i) && IsSplit(ops, k)
    ensures i == k
  {
    assert Prec(ops[i]) == Prec(ops[k]);
  }

  /** The chain of an ordered node splits at its root operator. */
  lemma {:induction false} OrderedSplitsAtRoot(o: Op, l: Tree, r: Tree)
    requires Ordered(Bin(o, l, r))
    ensures var ops := Ops(Bin(o, l, r)); var i := |Ops(l)|;
      && i < |ops| && ops[i] == o && ops[..i] == Ops(l) && ops[i + 1..] == Ops(r)
      && IsSplit(ops, i)
  {
    var ops := Ops(Bin(o, l, r));
    var i := |Ops(l)|;
    assert ops[..i] == Ops(l) && ops[i + 1..] == Ops(r);
    forall j | 0 <= j < |ops| ensures Prec(o) <= Prec(ops[j]) {
      if j < i { assert ops[j] == Ops(l)[j]; }
      else if j > i { assert ops[j] == Ops(r)[j - i - 1]; }
    }
    forall j | i < j < |ops| ensures Prec(o) < Prec(ops[j]) {
      assert ops[j] == Ops(r)[j - i - 1];
    }
  }

  /** An ordered tree is the resolution of its own chain: precedence and
      left associativity determine the tree uniquely. */
  lemma {:induction false} OrderedIsResolved(t: Tree)
    requires Ordered(t)
    ensures |Leaves(t)| == |Ops(t)| + 1
    ensures t == Resolve(Leaves(t), Ops(t))
  {
    LeavesOutnumberOps(t);
    match t
    case Leaf(_) =>
    case Bin(o, l, r) =>
      LeavesOutnumberOps(l);
      OrderedIsResolved(l);
      OrderedIsResolved(r);
      var ops := Ops(t);
      var xs := Leaves(t);
      var i := |Ops(l)|;
      OrderedSplitsAtRoot(o, l, r);
      assert xs[..i + 1] == Leaves(l) && xs[i + 1..] == Leaves(r);
      SplitIndexIsSplit(ops);
      SplitUnique(ops, i, SplitIndex(ops));
  }

  function ToNode(t: Tree): Node {
    match t
    case Leaf(n) => n
    case Bin(o, l, r) => BinOp(o, ToNode(l), ToNode(r))
  }

  /** The chain parsed into a node. */
  function BuildChain(xs: seq<Node>, ops: seq<Op>): Node
    requires |xs| == |ops| + 1
  {
    ToNode(Resolve(xs, ops))
  }
}
