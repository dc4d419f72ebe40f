/** A rebuilt asset tree is the balanced tree over its leaves, the earlier half on the left at every level. */
module AssetHalves {
  import opened Wrappers
  import opened AssetTrees
  import opened Merkle

  /** The tree of height h at position `index` of its level over one to 2^h nodes of level `base`: the first half of the
      places on the left, the rest on the right, and a labelled empty node where the right half has none. */
  function Halves(asset: Asset, base: nat, xs: seq<Node>, h: nat, index: nat): Node
    requires 0 < |xs| <= Pow2(h)
    decreases h
  {
    if h == 0 then xs[0]
    else
      var half, level := Pow2(h - 1), base + h - 1;
      if |xs| <= half
      then Inner(asset, level, Halves(asset, base, xs, h - 1, 2 * index), Empty(asset, level, 2 * index + 1))
      else Inner(asset, level, Halves(asset, base, xs[..half], h - 1, 2 * index),
                 Halves(asset, base, xs[half..], h - 1, 2 * index + 1))
  }

  lemma {:induction false} PairsSplit(asset: Asset, level: nat, xs: seq<Node>, m: nat, start: nat)
    requires m % 2 == 0 && m <= |xs|
    ensures Pairs(asset, level, xs, start)
         == Pairs(asset, level, xs[..m], start) + Pairs(asset, level, xs[m..], start + m)
  {
    if m > 0 {
      PairsSplit(asset, level, xs[2..], m - 2, start + 2);
      assert xs[..m][2..] == xs[2..][..m - 2] && xs[2..][m - 2..] == xs[m..];
    } else {
      assert xs[0..] == xs;
    }
  }

  /** The place of the leftmost node h levels below place `index`. */
  function First(index: nat, h: nat): nat
    decreases h
  {
    if h == 0 then index else First(2 * index, h - 1)
  }

  lemma {:induction false} NextFirst(index: nat, h: nat)
    ensures First(index + 1, h) == First(index, h) + Pow2(h)
    decreases h
  {
    if h > 0 {
      NextFirst(2 * index, h - 1);
      NextFirst(2 * index + 1, h - 1);
    }
  }

  lemma {:induction false} FirstOfRoot(h: nat)
    ensures First(0, h) == 0
  {
    if h > 0 {
      FirstOfRoot(h - 1);
    }
  }

  /** Pairing a level up once takes one level off the tree. */
  lemma {:induction false} PairsUp(asset: Asset, base: nat, xs: seq<Node>, h: nat, index: nat, start: nat)
    requires 0 < |xs| <= Pow2(h + 1) && start == First(index, h + 1)
    ensures 0 < |Pairs(asset, base, xs, start)| <= Pow2(h)
    ensures Halves(asset, base, xs, h + 1, index) == Halves(asset, base + 1, Pairs(asset, base, xs, start), h, index)
    decreases h, 1
  {
    hide Pairs, Pow2, First;
    PairsShrink(asset, base, xs, start);
    Doubles(h, |xs|);
    if h == 0 {
      PairsUpOnce(asset, base, xs, index, start);
    } else {
      Doubles(h - 1, |xs|);
      NextFirst(2 * index, h);
      assert First(index, h + 1) == First(2 * index, h) by { FirstBelow(index, h); }
      if |xs| <= Pow2(h) {
        PairsUp(asset, base, xs, h - 1, 2 * index, start);
      } else {
        PairsUpHalves(asset, base, xs, h, index, start);
      }
    }
  }

  /** More nodes than the left half holds. */
  lemma {:induction false} PairsUpHalves(asset: Asset, base: nat, xs: seq<Node>, h: nat, index: nat, start: nat)
    requires h > 0 && Pow2(h) < |xs| <= Pow2(h + 1) && start == First(2 * index, h)
    ensures 0 < |Pairs(asset, base, xs, start)| <= Pow2(h)
    ensures Halves(asset, base, xs, h + 1, index) == Halves(asset, base + 1, Pairs(asset, base, xs, start), h, index)
    decreases h, 0
  {
    hide Pairs, Pow2, First;
    var half := Pow2(h);
    Doubles(h, |xs|);
    Doubles(h - 1, half);
    NextFirst(2 * index, h);
    PairsUp(asset, base, xs[..half], h - 1, 2 * index, start);
    PairsUp(asset, base, xs[half..], h - 1, 2 * index + 1, start + half);
    PairsSplit(asset, base, xs, half, start);
    PairsShrink(asset, base, xs[..half], start);
    PairsShrink(asset, base, xs, start);
    Joined(asset, base + 1, Pairs(asset, base, xs[..half], start), Pairs(asset, base, xs[half..], start + half), h,
           index);
  }

  lemma Doubles(h: nat, n: nat)
    ensures Pow2(h + 1) == 2 * Pow2(h) && Pow2(h + 1) % 2 == 0
    ensures 0 < n <= Pow2(h + 1) ==> 0 < (n + 1) / 2 <= Pow2(h)
    ensures n == Pow2(h + 1) ==> (n + 1) / 2 == Pow2(h)
  {
  }

  lemma FirstBelow(index: nat, h: nat)
    ensures First(index, h + 1) == First(2 * index, h)
  {
  }

  lemma PairsUpOnce(asset: Asset, base: nat, xs: seq<Node>, index: nat, start: nat)
    requires 0 < |xs| <= Pow2(1) && start == First(index, 1)
    ensures |Pairs(asset, base, xs, start)| == 1
    ensures Halves(asset, base, xs, 1, index) == Pairs(asset, base, xs, start)[0]
  {
    assert start == First(2 * index, 0) == 2 * index && Pow2(0) == 1;
  }

  /** A full left half and a right half make up the tree above them. */
  lemma Joined(asset: Asset, base: nat, left: seq<Node>, right: seq<Node>, h: nat, index: nat)
    requires h > 0 && |left| == Pow2(h - 1) && 0 < |right| <= Pow2(h - 1)
    ensures |left + right| <= Pow2(h)
    ensures Halves(asset, base, left + right, h, index)
         == Inner(asset, base + h - 1, Halves(asset, base, left, h - 1, 2 * index),
                  Halves(asset, base, right, h - 1, 2 * index + 1))
  {
    assert (left + right)[..|left|] == left && (left + right)[|left|..] == right;
  }

  /** The level-by-level reduction builds this tree, with as many levels as the leaves need. */
  lemma {:induction false} ReduceHalves(asset: Asset, base: nat, xs: seq<Node>, h: nat)
    requires 0 < |xs| <= Pow2(h) && (h > 0 ==> |xs| > Pow2(h - 1))
    ensures Reduce(asset, base, xs) == Halves(asset, base, xs, h, 0)
    decreases h
  {
    if h > 0 {
      var up := Pairs(asset, base, xs, 0);
      PairsShrink(asset, base, xs, 0);
      FirstOfRoot(h);
      PairsUp(asset, base, xs, h - 1, 0, 0);
      assert h > 1 ==> Pow2(h - 1) == 2 * Pow2(h - 2);
      ReduceHalves(asset, base + 1, up, h - 1);
    }
  }

  /** The height that n leaves need. */
  function Height(n: nat): (h: nat)
    requires n > 0
    ensures n <= Pow2(h) && (h > 0 ==> n > Pow2(h - 1))
  {
    if n == 1 then 0
    else
      var h := Height((n + 1) / 2);
      assert h > 0 ==> Pow2(h) == 2 * Pow2(h - 1);
      h + 1
  }

  /** An asset's root is the balanced tree over its leaves in the order of the log. */
  lemma RootIsBalanced(log: seq<Leaf>, asset: Asset)
    requires Group(log, asset) != []
    ensures var xs := Nodes(Group(log, asset));
            TreeRoot(log, asset) == Some(Halves(asset, 0, xs, Height(|xs|), 0))
  {
    var xs := Nodes(Group(log, asset));
    ReduceHalves(asset, 0, xs, Height(|xs|));
  }
}
