/** Per-asset commitment trees, rebuilt from one append-only leaf log. Node labels are free constructors. */
module AssetTrees {
  import opened Wrappers

  type Asset = nat

  datatype Node =
    | LeafNode(commitment: nat)
    | Inner(asset: Asset, level: nat, left: Node, right: Node)
    | Empty(emptyAsset: Asset, emptyLevel: nat, index: nat)

  /** `id` is unique per leaf; `sourceTx` is the transaction that pushed it. */
  datatype Leaf = Leaf(id: nat, commitment: nat, asset: Asset, sourceTx: nat)

  // ---------- one asset's view of the log ----------

  function Group(log: seq<Leaf>, asset: Asset): seq<Leaf> {
    if log == [] then []
    else (if log[0].asset == asset then [log[0]] else []) + Group(log[1..], asset)
  }

  function Nodes(leaves: seq<Leaf>): (r: seq<Node>)
    ensures |r| == |leaves| && forall i :: 0 <= i < |r| ==> r[i] == LeafNode(leaves[i].commitment)
  {
    if leaves == [] then [] else [LeafNode(leaves[0].commitment)] + Nodes(leaves[1..])
  }

  /** Pair up a level from position `index` on; a missing right child becomes a labelled empty node. */
  function Pairs(asset: Asset, level: nat, current: seq<Node>, index: nat): seq<Node> {
    if current == [] then []
    else if |current| == 1 then [Inner(asset, level, current[0], Empty(asset, level, index + 1))]
    else [Inner(asset, level, current[0], current[1])] + Pairs(asset, level, current[2..], index + 2)
  }

  lemma {:induction false} PairsShrink(asset: Asset, level: nat, current: seq<Node>, index: nat)
    ensures |Pairs(asset, level, current, index)| == (|current| + 1) / 2
  {
    if |current| > 1 {
      PairsShrink(asset, level, current[2..], index + 2);
    }
  }

  function Reduce(asset: Asset, level: nat, current: seq<Node>): Node
    requires current != []
    decreases |current|
  {
    if |current| == 1 then current[0]
    else
      PairsShrink(asset, level, current, 0);
      Reduce(asset, level + 1, Pairs(asset, level, current, 0))
  }

  function TreeRoot(log: seq<Leaf>, asset: Asset): (r: Option<Node>) {
    var leaves := Group(log, asset);
    if leaves == [] then None else Some(Reduce(asset, 0, Nodes(leaves)))
  }

  // ---------- grouping ----------

  lemma {:induction false} GroupAppend(log: seq<Leaf>, more: seq<Leaf>, asset: Asset)
    ensures Group(log + more, asset) == Group(log, asset) + Group(more, asset)
  {
    if log == [] {
      assert log + more == more;
    } else {
      GroupAppend(log[1..], more, asset);
      var all := log + more;
      assert all[0] == log[0] && all[1..] == log[1..] + more;
      var first := if log[0].asset == asset then [log[0]] else [];
      assert first + (Group(log[1..], asset) + Group(more, asset))
          == first + Group(log[1..], asset) + Group(more, asset);
    }
  }

  lemma {:induction false} GroupOther(more: seq<Leaf>, asset: Asset)
    requires forall i :: 0 <= i < |more| ==> more[i].asset != asset
    ensures Group(more, asset) == []
  {
    if more != [] {
      GroupOther(more[1..], asset);
    }
  }

  /** The group is the order-preserving subsequence of the log: position p of the log, if it has the asset,
      is the entry that follows exactly the earlier leaves of that asset. */
  lemma GroupIsSubsequence(log: seq<Leaf>, asset: Asset, p: nat)
    requires p < |log| && log[p].asset == asset
    ensures |Group(log[..p], asset)| < |Group(log, asset)|
    ensures Group(log, asset)[|Group(log[..p], asset)|] == log[p]
    ensures Group(log, asset)[..|Group(log[..p], asset)|] == Group(log[..p], asset)
  {
    assert log == log[..p] + ([log[p]] + log[p + 1..]);
    GroupAppend(log[..p], [log[p]] + log[p + 1..], asset);
    GroupAppend([log[p]], log[p + 1..], asset);
    assert [log[p]][1..] == [];
  }

  /** Appending leaves of other assets leaves an asset's root alone. */
  lemma OtherRootsUnchanged(log: seq<Leaf>, more: seq<Leaf>, asset: Asset)
    requires forall i :: 0 <= i < |more| ==> more[i].asset != asset
    ensures TreeRoot(log + more, asset) == TreeRoot(log, asset)
  {
    GroupAppend(log, more, asset);
    GroupOther(more, asset);
    assert Group(log, asset) + [] == Group(log, asset);
  }

  // ---------- the root binds the leaves ----------

  /** What a level can hold: leaves at level 0, inner nodes of the level below elsewhere. */
  predicate AtLevel(n: Node, level: nat) {
    if level == 0 then n.LeafNode? else n.Inner? && n.level == level - 1
  }

  predicate AllAtLevel(nodes: seq<Node>, level: nat) {
    forall i :: 0 <= i < |nodes| ==> AtLevel(nodes[i], level)
  }

  lemma {:induction false} PairsLevel(asset: Asset, level: nat, current: seq<Node>, index: nat)
    ensures AllAtLevel(Pairs(asset, level, current, index), level + 1)
  {
    if |current| > 1 {
      PairsLevel(asset, level, current[2..], index + 2);
    }
  }

  lemma {:induction false} PairsInjective(asset: Asset, level: nat, xs: seq<Node>, ys: seq<Node>, index: nat)
    requires AllAtLevel(xs, level) && AllAtLevel(ys, level)
    requires Pairs(asset, level, xs, index) == Pairs(asset, level, ys, index)
    ensures xs == ys
  {
    PairsShrink(asset, level, xs, index);
    PairsShrink(asset, level, ys, index);
    if xs != [] {
      var p, q := Pairs(asset, level, xs, index), Pairs(asset, level, ys, index);
      assert p[0] == q[0] && (|ys| > 1 ==> AtLevel(ys[1], level));
      if |xs| > 1 {
        assert AtLevel(xs[1], level);
        assert |ys| > 1;
        assert p[1..] == Pairs(asset, level, xs[2..], index + 2) && q[1..] == Pairs(asset, level, ys[2..], index + 2);
        PairsInjective(asset, level, xs[2..], ys[2..], index + 2);
        assert xs == [xs[0], xs[1]] + xs[2..] && ys == [ys[0], ys[1]] + ys[2..];
      }
    }
  }

  /** The level of the root tells how many levels were built. */
  lemma {:induction false} ReduceLevel(asset: Asset, level: nat, xs: seq<Node>)
    requires xs != [] && AllAtLevel(xs, level)
    ensures var r := Reduce(asset, level, xs);
            if |xs| == 1 then AtLevel(r, level) else r.Inner? && r.level >= level
    decreases |xs|
  {
    if |xs| > 1 {
      var up := Pairs(asset, level, xs, 0);
      PairsShrink(asset, level, xs, 0);
      PairsLevel(asset, level, xs, 0);
      ReduceLevel(asset, level + 1, up);
    }
  }

  lemma {:induction false} ReduceInjective(asset: Asset, level: nat, xs: seq<Node>, ys: seq<Node>)
    requires xs != [] && ys != [] && AllAtLevel(xs, level) && AllAtLevel(ys, level)
    requires Reduce(asset, level, xs) == Reduce(asset, level, ys)
    ensures xs == ys
    decreases |xs|
  {
    ReduceLevel(asset, level, xs);
    ReduceLevel(asset, level, ys);
    if |xs| > 1 {
      PairsShrink(asset, level, xs, 0);
      PairsShrink(asset, level, ys, 0);
      PairsLevel(asset, level, xs, 0);
      PairsLevel(asset, level, ys, 0);
      ReduceInjective(asset, level + 1, Pairs(asset, level, xs, 0), Pairs(asset, level, ys, 0));
      PairsInjective(asset, level, xs, ys, 0);
    }
  }

  /** Two logs give an asset the same root exactly when they list the same commitments for it in the same
      order. */
  lemma RootBindsCommitments(log: seq<Leaf>, log': seq<Leaf>, asset: Asset)
    ensures TreeRoot(log, asset) == TreeRoot(log', asset) <==> Nodes(Group(log, asset)) == Nodes(Group(log', asset))
  {
    var xs, ys := Nodes(Group(log, asset)), Nodes(Group(log', asset));
    if xs != [] && ys != [] && TreeRoot(log, asset) == TreeRoot(log', asset) {
      ReduceInjective(asset, 0, xs, ys);
    }
  }

  // ---------- recorded notes ----------

  function FindLeaf(log: seq<Leaf>, tx: nat, commitment: nat): (r: Option<Leaf>)
    ensures r.Some? ==> r.value in log && r.value.sourceTx == tx && r.value.commitment == commitment
  {
    if log == [] then None
    else if log[0].sourceTx == tx && log[0].commitment == commitment then Some(log[0])
    else FindLeaf(log[1..], tx, commitment)
  }

  /** `leafIds.indexOf(id)`, or -1. */
  function IndexOf(leaves: seq<Leaf>, id: nat): (r: int)
    ensures -1 <= r < |leaves|
    ensures r >= 0 ==> leaves[r].id == id
    ensures r < 0 ==> forall i :: 0 <= i < |leaves| ==> leaves[i].id != id
  {
    if leaves == [] then -1
    else if leaves[0].id == id then 0
    else
      var r := IndexOf(leaves[1..], id);
      if r < 0 then -1 else r + 1
  }

  /** `recordPrivateNote`'s leafIndex for a payload of a transaction, in the tree of `asset`. */
  function LeafIndex(log: seq<Leaf>, tx: nat, commitment: nat, asset: Asset): Option<int> {
    var leaf := FindLeaf(log, tx, commitment);
    if leaf.None? then None else Some(IndexOf(Group(log, asset), leaf.value.id))
  }

  ghost predicate UniqueIds(log: seq<Leaf>) {
    forall i, j :: 0 <= i < j < |log| ==> log[i].id != log[j].id
  }

  lemma {:induction false} GroupMembers(log: seq<Leaf>, asset: Asset, leaf: Leaf)
    ensures leaf in Group(log, asset) <==> leaf in log && leaf.asset == asset
  {
    if log != [] {
      GroupMembers(log[1..], asset, leaf);
      assert log == [log[0]] + log[1..];
    }
  }

  /** The recorded index points to the note's own commitment in its asset's tree, whatever is appended later. */
  lemma LeafIndexForever(log: seq<Leaf>, more: seq<Leaf>, tx: nat, commitment: nat, asset: Asset)
    requires UniqueIds(log) && FindLeaf(log, tx, commitment).Some?
    requires FindLeaf(log, tx, commitment).value.asset == asset
    ensures var i := LeafIndex(log, tx, commitment, asset).value;
            var leaves := Group(log + more, asset);
            0 <= i < |leaves| && leaves[i] == FindLeaf(log, tx, commitment).value
                && Nodes(leaves)[i] == LeafNode(commitment)
  {
    var leaf, group := FindLeaf(log, tx, commitment).value, Group(log, asset);
    GroupMembers(log, asset, leaf);
    var i := IndexOf(group, leaf.id);
    var k :| 0 <= k < |group| && group[k] == leaf;
    GroupMembers(log, asset, group[i]);
    var p :| 0 <= p < |log| && log[p] == leaf;
    var q :| 0 <= q < |log| && log[q] == group[i];
    assert p == q;
    GroupAppend(log, more, asset);
  }

  // ---------- rebuilding in place ----------

  function GroupOf(groups: map<Asset, seq<Leaf>>, asset: Asset): seq<Leaf> {
    if asset in groups then groups[asset] else []
  }

  method GroupLeaves(log: seq<Leaf>) returns (groups: map<Asset, seq<Leaf>>)
    ensures forall a :: GroupOf(groups, a) == Group(log, a)
    ensures forall a :: a in groups ==> groups[a] != []
  {
    groups := map[];
    for i := 0 to |log|
      invariant forall a :: GroupOf(groups, a) == Group(log[..i], a)
      invariant forall a :: a in groups ==> groups[a] != []
    {
      var leaf := log[i];
      ghost var before := groups;
      groups := groups[leaf.asset := GroupOf(groups, leaf.asset) + [leaf]];
      forall a: Asset ensures GroupOf(groups, a) == Group(log[..i + 1], a) {
        assert GroupOf(before, a) == Group(log[..i], a);
        GroupExtend(log, i, a);
      }
    }
    assert log[..|log|] == log;
  }

  lemma GroupExtend(log: seq<Leaf>, i: nat, a: Asset)
    requires i < |log|
    ensures Group(log[..i + 1], a) == if log[i].asset == a then Group(log[..i], a) + [log[i]] else Group(log[..i], a)
  {
    assert log[..i + 1] == log[..i] + [log[i]];
    GroupAppend(log[..i], [log[i]], a);
    assert [log[i]][1..] == [];
    assert Group([log[i]], a) == if log[i].asset == a then [log[i]] else [];
  }

  class Protocol {
    var leaves: seq<Leaf>
    var roots: map<Asset, Node>

    /** Every asset in the log has its root, and no other asset has one. */
    ghost predicate Valid()
      reads this
    {
      && (forall a :: a in roots ==> TreeRoot(leaves, a) == Some(roots[a]))
      && (forall i :: 0 <= i < |leaves| ==> leaves[i].asset in roots)
    }

    constructor ()
      ensures Valid() && leaves == []
    {
      leaves, roots := [], map[];
    }

    /** Pushing a transaction's leaves, then rebuilding every tree. */
    method Append(more: seq<Leaf>)
      modifies this
      ensures Valid() && leaves == old(leaves) + more
    {
      leaves := leaves + more;
      Rebuild();
    }

    /** `rebuildCommitmentTrees` */
    method Rebuild()
      modifies this`roots
      ensures Valid()
    {
      hide Group, Reduce, Nodes;
      var groups := GroupLeaves(leaves);
      forall i | 0 <= i < |leaves| ensures leaves[i].asset in groups {
        GroupMembers(leaves, leaves[i].asset, leaves[i]);
      }
      roots := map[];
      var todo := groups.Keys;
      while todo != {}
        invariant todo <= groups.Keys && roots.Keys == groups.Keys - todo
        invariant forall a :: a in roots ==> TreeRoot(leaves, a) == Some(roots[a])
        decreases |todo|
      {
        var a :| a in todo;
        var root := BuildTree(a, Nodes(groups[a]));
        roots := roots[a := root];
        todo := todo - {a};
      }
    }

    /** Level by level until one node is left. */
    method BuildTree(asset: Asset, nodes: seq<Node>) returns (root: Node)
      requires nodes != []
      ensures root == Reduce(asset, 0, nodes)
    {
      var current, level := nodes, 0;
      while |current| > 1
        invariant current != [] && Reduce(asset, level, current) == Reduce(asset, 0, nodes)
        decreases |current|
      {
        var parents, index := [], 0;
        while index < |current|
          invariant 0 <= index <= |current| + 1 && index % 2 == 0
          invariant index < |current| ==>
                      parents + Pairs(asset, level, current[index..], index) == Pairs(asset, level, current, 0)
          invariant index >= |current| ==> parents == Pairs(asset, level, current, 0)
        {
          ghost var rest := current[index..];
          var right := if index + 1 < |current| then current[index + 1] else Empty(asset, level, index + 1);
          assert |rest| > 2 ==> rest[2..] == current[index + 2..];
          parents := parents + [Inner(asset, level, current[index], right)];
          index := index + 2;
        }
        PairsShrink(asset, level, current, 0);
        current, level := parents, level + 1;
      }
      root := current[0];
    }
  }
}
