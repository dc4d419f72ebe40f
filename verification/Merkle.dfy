/** Poseidon as a free constructor, one per accepted arity: two hashes agree only if their inputs do. */
module Hash {
  datatype Term =
    | Num(n: int)
    | Hash1(a: Term)
    | Hash2(a: Term, b: Term)
    | Hash3(a: Term, b: Term, c: Term)
    | Hash4(a: Term, b: Term, c: Term, d: Term)
}

/** The zero-padded note tree of the Retail walkthrough and the circuit's path fold. */
module Merkle {
  import opened Wrappers
  import opened Hash

  const RETAIL_DEPTH: nat := 8
  const RETAIL_ZERO: int := 21786163348386038604960770631540184405176086071424084281943739401806009032442

  function Node(left: Term, right: Term): Term {
    Hash2(left, right)
  }

  /** Root of an empty subtree of the given height. */
  function Zero(level: nat): Term {
    if level == 0 then Num(RETAIL_ZERO) else Node(Zero(level - 1), Zero(level - 1))
  }

  function Pow2(n: nat): (p: nat)
    ensures p > 0
  {
    if n == 0 then 1 else 2 * Pow2(n - 1)
  }

  /** `list[i] || otherwise` */
  function At(list: seq<Term>, i: nat, otherwise: Term): Term {
    if i < |list| then list[i] else otherwise
  }

  // ---------- the sparse tree ----------

  function ParentCount(n: nat): nat {
    if n == 0 then 1 else (n + 1) / 2
  }

  function Parents(current: seq<Term>, zero: Term): (parents: seq<Term>)
    ensures |parents| == ParentCount(|current|)
  {
    var first := Node(At(current, 0, zero), At(current, 1, zero));
    if |current| <= 2 then [first] else [first] + Parents(current[2..], zero)
  }

  /** The stored nodes of one level; everything to their right is an empty subtree. */
  function Level(leaves: seq<Term>, level: nat): seq<Term> {
    if level == 0 then leaves else Parents(Level(leaves, level - 1), Zero(level - 1))
  }

  function Root(leaves: seq<Term>, depth: nat): Term {
    At(Level(leaves, depth), 0, Zero(depth))
  }

  method ZeroLevels(depth: nat) returns (zeros: seq<Term>)
    ensures |zeros| == depth + 1
    ensures forall l :: 0 <= l <= depth ==> zeros[l] == Zero(l)
  {
    zeros := [Num(RETAIL_ZERO)];
    for i := 0 to depth
      invariant |zeros| == i + 1
      invariant forall l :: 0 <= l <= i ==> zeros[l] == Zero(l)
    {
      zeros := zeros + [Node(zeros[i], zeros[i])];
    }
  }

  method NextLevel(current: seq<Term>, zero: Term) returns (next: seq<Term>)
    ensures next == Parents(current, zero)
  {
    next := [];
    var i := 0;
    while i < if |current| == 0 then 1 else |current|
      invariant i >= 0
      invariant i == 0 || i < |current| ==> next + Parents(current[i..], zero) == Parents(current, zero)
      invariant i != 0 && i >= |current| ==> next == Parents(current, zero)
    {
      ghost var rest := current[i..];
      assert |rest| > 2 ==> current[i + 2..] == rest[2..];
      next := next + [Node(At(current, i, zero), At(current, i + 1, zero))];
      i := i + 2;
    }
  }

  ghost function Levels(leaves: seq<Term>, depth: nat): seq<seq<Term>> {
    if depth == 0 then [leaves] else Levels(leaves, depth - 1) + [Level(leaves, depth)]
  }

  lemma {:induction false} LevelsAt(leaves: seq<Term>, depth: nat, l: nat)
    requires l <= depth
    ensures |Levels(leaves, depth)| == depth + 1 && Levels(leaves, depth)[l] == Level(leaves, l)
  {
    if depth > 0 {
      LevelsAt(leaves, depth - 1, if l < depth then l else 0);
    }
  }

  /** `retailTree`: level by level, pairing stored nodes and padding with the level's zero. */
  method RetailTree(leaves: seq<Term>, depth: nat) returns (levels: seq<seq<Term>>, root: Term)
    ensures levels == Levels(leaves, depth)
    ensures root == Root(leaves, depth)
  {
    var zeros := ZeroLevels(depth);
    levels := [leaves];
    for level := 0 to depth
      invariant |levels| == level + 1 && levels == Levels(leaves, level)
      invariant levels[level] == Level(leaves, level)
    {
      var next := NextLevel(levels[level], zeros[level]);
      levels := levels + [next];
    }
    root := At(levels[depth], 0, zeros[depth]);
  }

  // ---------- the full tree ----------

  function Leaf(leaves: seq<Term>, i: nat): Term {
    At(leaves, i, Zero(0))
  }

  /** Node i of a level of the infinite tree whose leaves are padded with the zero leaf. */
  ghost function FullNode(leaves: seq<Term>, level: nat, i: nat): Term {
    if level == 0 then Leaf(leaves, i)
    else Hash2(FullNode(leaves, level - 1, 2 * i), FullNode(leaves, level - 1, 2 * i + 1))
  }

  /** Reference definition: the root of a perfect tree, by halving. */
  ghost function PerfectRoot(s: seq<Term>, depth: nat): Term
    requires |s| == Pow2(depth)
  {
    if depth == 0 then s[0]
    else
      var half := Pow2(depth - 1);
      Hash2(PerfectRoot(s[..half], depth - 1), PerfectRoot(s[half..], depth - 1))
  }

  ghost function Padded(leaves: seq<Term>, depth: nat): (s: seq<Term>)
    ensures |s| == Pow2(depth)
  {
    seq(Pow2(depth), (i: nat) => Leaf(leaves, i))
  }

  lemma {:induction false} SparseIsFull(leaves: seq<Term>, level: nat, i: nat)
    ensures At(Level(leaves, level), i, Zero(level)) == FullNode(leaves, level, i)
  {
    if level > 0 {
      SparseIsFull(leaves, level - 1, 2 * i);
      SparseIsFull(leaves, level - 1, 2 * i + 1);
      ParentAt(Level(leaves, level - 1), level - 1, i);
    }
  }

  lemma {:induction false} ParentAt(current: seq<Term>, level: nat, i: nat)
    ensures At(Parents(current, Zero(level)), i, Zero(level + 1))
         == Node(At(current, 2 * i, Zero(level)), At(current, 2 * i + 1, Zero(level)))
  {
    if |current| > 2 && i > 0 {
      ParentAt(current[2..], level, i - 1);
    }
  }

  lemma {:induction false} PerfectIsFull(leaves: seq<Term>, s: seq<Term>, level: nat, i: nat)
    requires |s| == Pow2(level)
    requires forall k :: 0 <= k < |s| ==> s[k] == Leaf(leaves, i * Pow2(level) + k)
    ensures PerfectRoot(s, level) == FullNode(leaves, level, i)
  {
    if level > 0 {
      var half := Pow2(level - 1);
      assert i * Pow2(level) == (2 * i) * half && (2 * i + 1) * half == i * Pow2(level) + half;
      PerfectIsFull(leaves, s[..half], level - 1, 2 * i);
      PerfectIsFull(leaves, s[half..], level - 1, 2 * i + 1);
    }
  }

  /** The sparse root is the root of the perfect tree padded with the zero leaf. */
  lemma SparseRefinesFull(leaves: seq<Term>, depth: nat)
    ensures Root(leaves, depth) == PerfectRoot(Padded(leaves, depth), depth)
  {
    SparseIsFull(leaves, depth, 0);
    PerfectIsFull(leaves, Padded(leaves, depth), depth, 0);
  }

  // ---------- paths ----------

  /** `index >> level` */
  function Shift(index: nat, level: nat): nat {
    if level == 0 then index else Shift(index, level - 1) / 2
  }

  /** `i ^ 1` */
  function Flip(i: nat): nat {
    if i % 2 == 0 then i + 1 else i - 1
  }

  /** The siblings the payment code extracts for a leaf index. */
  function Siblings(leaves: seq<Term>, index: nat, depth: nat): (s: seq<Term>)
    ensures |s| == depth
  {
    if depth == 0 then []
    else
      var l := depth - 1;
      Siblings(leaves, index, l) + [At(Level(leaves, l), Flip(Shift(index, l)), Zero(l))]
  }

  function Step(bit: nat, current: Term, sibling: Term): Term {
    if bit == 1 then Node(sibling, current) else Node(current, sibling)
  }

  ghost function Fold(leaf: Term, index: nat, path: seq<Term>): Term {
    if path == [] then leaf
    else
      var n := |path| - 1;
      Step(Shift(index, n) % 2, Fold(leaf, index, path[..n]), path[n])
  }

  /** The circuit's `MerkleProof`. `None`: the index does not fit the path's bits, so the circuit
      has no witness. */
  method MerkleProof(leaf: Term, index: nat, path: seq<Term>) returns (r: Option<Term>)
    ensures r == if index < Pow2(|path|) then Some(Fold(leaf, index, path)) else None
  {
    var bits := ToBinary(index, |path|);
    if bits.None? { return None; }
    var current := leaf;
    for i := 0 to |path|
      invariant current == Fold(leaf, index, path[..i])
    {
      assert path[..i + 1][..i] == path[..i];
      current := Step(bits.value[i], current, path[i]);
    }
    assert path[..|path|] == path;
    return Some(current);
  }

  /** `bits.ToBinary` with a fixed number of digits. */
  method ToBinary(index: nat, n: nat) returns (r: Option<seq<nat>>)
    ensures r.Some? <==> index < Pow2(n)
    ensures r.Some? ==> |r.value| == n && forall l :: 0 <= l < n ==> r.value[l] == Shift(index, l) % 2
  {
    var bits, rest := [], index;
    for i := 0 to n
      invariant |bits| == i && rest == Shift(index, i)
      invariant forall l {:trigger bits[l]} :: 0 <= l < i ==> bits[l] == Shift(index, l) % 2
    {
      bits, rest := bits + [rest % 2], rest / 2;
    }
    ShiftedOut(index, n);
    return if rest == 0 then Some(bits) else None;
  }

  lemma {:induction false} ShiftFirst(index: nat, n: nat)
    requires n > 0
    ensures Shift(index, n) == Shift(index / 2, n - 1)
  {
    if n > 1 {
      ShiftFirst(index, n - 1);
    }
  }

  lemma {:induction false} ShiftedOut(index: nat, n: nat)
    ensures Shift(index, n) == 0 <==> index < Pow2(n)
  {
    if n > 0 {
      ShiftFirst(index, n);
      ShiftedOut(index / 2, n - 1);
    }
  }

  lemma {:induction false} FoldOfSiblings(leaves: seq<Term>, index: nat, depth: nat)
    ensures Fold(Leaf(leaves, index), index, Siblings(leaves, index, depth))
         == FullNode(leaves, depth, Shift(index, depth))
  {
    hide Level;
    if depth > 0 {
      var n := depth - 1;
      FoldOfSiblings(leaves, index, n);
      assert Siblings(leaves, index, depth)[..n] == Siblings(leaves, index, n);
      var j := Shift(index, n);
      SparseIsFull(leaves, n, Flip(j));
    }
  }

  /** Completeness: the extracted siblings fold back to the root, at every depth and index. */
  lemma PathComplete(leaves: seq<Term>, index: nat, depth: nat)
    requires index < Pow2(depth)
    ensures Fold(Leaf(leaves, index), index, Siblings(leaves, index, depth)) == Root(leaves, depth)
  {
    FoldOfSiblings(leaves, index, depth);
    ShiftedOut(index, depth);
    SparseIsFull(leaves, depth, 0);
  }

  lemma {:induction false} FoldDetermines(leaves: seq<Term>, leaf: Term, index: nat, path: seq<Term>)
    requires Fold(leaf, index, path) == FullNode(leaves, |path|, Shift(index, |path|))
    ensures leaf == Leaf(leaves, index) && path == Siblings(leaves, index, |path|)
  {
    hide Level, Step, FullNode;
    if path != [] {
      var n := |path| - 1;
      var j := Shift(index, n);
      SparseIsFull(leaves, n, Flip(j));
      StepDetermines(leaves, n, j, Fold(leaf, index, path[..n]), path[n]);
      FoldDetermines(leaves, leaf, index, path[..n]);
      assert path == path[..n] + [path[n]];
    } else {
      assert FullNode(leaves, 0, index) == Leaf(leaves, index) by { LevelZero(leaves, index); }
    }
  }

  lemma LevelZero(leaves: seq<Term>, i: nat)
    ensures FullNode(leaves, 0, i) == Leaf(leaves, i)
  {
  }

  /** Injectivity, one level up: a parent fixes both children, on the sides the index bit says. */
  lemma StepDetermines(leaves: seq<Term>, n: nat, j: nat, below: Term, sibling: Term)
    requires Step(j % 2, below, sibling) == FullNode(leaves, n + 1, j / 2)
    ensures below == FullNode(leaves, n, j) && sibling == FullNode(leaves, n, Flip(j))
  {
    assert j == 2 * (j / 2) + j % 2;
  }

  /** Binding: a path that folds to the root at an index starts from that (padded) leaf, and is the
      extracted path. */
  lemma PathBinds(leaves: seq<Term>, leaf: Term, index: nat, path: seq<Term>)
    requires index < Pow2(|path|)
    ensures Fold(leaf, index, path) == Root(leaves, |path|) <==>
            leaf == Leaf(leaves, index) && path == Siblings(leaves, index, |path|)
  {
    ShiftedOut(index, |path|);
    SparseIsFull(leaves, |path|, 0);
    if Fold(leaf, index, path) == Root(leaves, |path|) {
      FoldDetermines(leaves, leaf, index, path);
    } else if leaf == Leaf(leaves, index) && path == Siblings(leaves, index, |path|) {
      PathComplete(leaves, index, |path|);
    }
  }

  /** Two leaf lists with one root agree on every padded leaf. */
  lemma RootBinds(xs: seq<Term>, ys: seq<Term>, depth: nat, index: nat)
    requires Root(xs, depth) == Root(ys, depth) && index < Pow2(depth)
    ensures Leaf(xs, index) == Leaf(ys, index)
  {
    PathComplete(xs, index, depth);
    PathBinds(ys, Leaf(xs, index), index, Siblings(xs, index, depth));
  }
}
