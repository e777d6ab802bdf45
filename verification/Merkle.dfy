/** The transaction root: a layer-halving loop, and the tree it computes. */
module Merkle {
  import opened Core

  /** Digest of nothing, and digest of a pair. */
  datatype Hashing = Hashing(empty: Hash, pair: (Hash, Hash) -> Hash)

  ghost predicate PairsHashApart(h: Hashing) {
    forall a, b, c, d :: h.pair(a, b) == h.pair(c, d) ==> a == c && b == d
  }

  function Half(n: nat): nat {
    (n + 1) / 2
  }

  /** One layer up: neighbours are paired, a last one without neighbour is paired with itself. */
  function Up(h: Hashing, layer: seq<Hash>): (next: seq<Hash>)
    ensures |next| == Half(|layer|)
    ensures forall i :: 0 <= i < |next| ==>
              next[i] == h.pair(layer[2 * i], if 2 * i + 1 < |layer| then layer[2 * i + 1] else layer[2 * i])
    decreases |layer|
  {
    if layer == [] then []
    else if |layer| == 1 then [h.pair(layer[0], layer[0])]
    else [h.pair(layer[0], layer[1])] + Up(h, layer[2..])
  }

  /** How many layers stand above a layer of this size. */
  function Height(n: nat): nat
    decreases n
  {
    if n <= 1 then 0 else 1 + Height(Half(n))
  }

  /** How many nodes a list of `n` leaves has at a level. */
  function Width(n: nat, level: nat): nat {
    if level == 0 then n else Half(Width(n, level - 1))
  }

  /** The tree from the top: a node is the digest of its two children, a missing right child repeats the left. */
  function Node(h: Hashing, leaves: seq<Hash>, level: nat, i: nat): Hash
    requires i < Width(|leaves|, level)
    decreases level
  {
    if level == 0 then leaves[i]
    else
      var left := Node(h, leaves, level - 1, 2 * i);
      if 2 * i + 1 < Width(|leaves|, level - 1) then h.pair(left, Node(h, leaves, level - 1, 2 * i + 1))
        else h.pair(left, left)
  }

  /** The root of the tree; of no leaves, the digest of nothing. */
  function Root(h: Hashing, leaves: seq<Hash>): Hash {
    if leaves == [] then h.empty
    else
      TopIsOne(|leaves|, Height(|leaves|));
      Node(h, leaves, Height(|leaves|), 0)
  }

  lemma {:induction false} WidthShift(n: nat, level: nat)
    ensures Width(Half(n), level) == Width(n, level + 1)
  {
    if level > 0 {
      WidthShift(n, level - 1);
    }
  }

  lemma {:induction false} TopIsOne(n: nat, top: nat)
    requires n > 0 && top == Height(n)
    ensures Width(n, top) == 1
    decreases n
  {
    if n > 1 {
      TopIsOne(Half(n), top - 1);
      WidthShift(n, top - 1);
    }
  }

  lemma NodeStep(h: Hashing, leaves: seq<Hash>, level: nat, i: nat)
    requires level > 0 && i < Width(|leaves|, level)
    ensures 2 * i < Width(|leaves|, level - 1)
    ensures var left := Node(h, leaves, level - 1, 2 * i);
            Node(h, leaves, level, i)
            == h.pair(left, if 2 * i + 1 < Width(|leaves|, level - 1) then Node(h, leaves, level - 1, 2 * i + 1)
              else left)
  {
  }

  lemma FirstLayer(h: Hashing, leaves: seq<Hash>, i: nat)
    requires i < Width(|leaves|, 1)
    ensures i < Width(|Up(h, leaves)|, 0) && Node(h, leaves, 1, i) == Node(h, Up(h, leaves), 0, i)
  {
    assert Width(|leaves|, 0) == |leaves|;
  }

  /** A node over the leaves is the node one level lower over the next layer. */
  lemma {:induction false} NodeOfLayer(h: Hashing, leaves: seq<Hash>, level: nat, i: nat)
    requires i < Width(|leaves|, level + 1)
    ensures i < Width(|Up(h, leaves)|, level)
    ensures Node(h, leaves, level + 1, i) == Node(h, Up(h, leaves), level, i)
    decreases level
  {
    hide Node, Up, Width, Half;
    WidthShift(|leaves|, level);
    if level == 0 {
      FirstLayer(h, leaves, i);
    } else {
      NodeStep(h, leaves, level + 1, i);
      WidthShift(|leaves|, level - 1);
      NodeStep(h, Up(h, leaves), level, i);
      NodeOfLayer(h, leaves, level - 1, 2 * i);
      if 2 * i + 1 < Width(|leaves|, level) {
        NodeOfLayer(h, leaves, level - 1, 2 * i + 1);
      }
    }
  }

  lemma RootOfLayer(h: Hashing, leaves: seq<Hash>)
    requires |leaves| > 1
    ensures Root(h, leaves) == Root(h, Up(h, leaves))
  {
    TopIsOne(|leaves|, Height(|leaves|));
    NodeOfLayer(h, leaves, Height(|leaves|) - 1, 0);
  }

  method MerkleRoot(h: Hashing, leaves: seq<Hash>) returns (root: Hash)
    ensures root == Root(h, leaves)
  {
    if leaves == [] {
      return h.empty;
    }
    var layer := leaves;
    while |layer| > 1
      invariant layer != [] && Root(h, layer) == Root(h, leaves)
      decreases |layer|
    {
      RootOfLayer(h, layer);
      layer := NextLayer(h, layer);
    }
    return layer[0];
  }

  method NextLayer(h: Hashing, layer: seq<Hash>) returns (next: seq<Hash>)
    ensures next == Up(h, layer)
  {
    next := [];
    var i := 0;
    while i < |layer|
      invariant i == 2 * |next| <= |layer| + 1
      invariant next == Up(h, layer)[..|next|]
    {
      var right := if i + 1 < |layer| then layer[i + 1] else layer[i];
      next := next + [h.pair(layer[i], right)];
      i := i + 2;
    }
  }

  lemma PairApart(h: Hashing, a: Hash, b: Hash, c: Hash, d: Hash)
    requires PairsHashApart(h) && h.pair(a, b) == h.pair(c, d)
    ensures a == c && b == d
  {
  }

  lemma {:induction false} UpIsInjective(h: Hashing, a: seq<Hash>, b: seq<Hash>)
    requires PairsHashApart(h) && |a| == |b| && Up(h, a) == Up(h, b)
    ensures a == b
    decreases |a|
  {
    hide PairsHashApart;
    if a != [] {
      assert Up(h, a)[0] == Up(h, b)[0];
      if |a| == 1 {
        PairApart(h, a[0], a[0], b[0], b[0]);
      } else {
        PairApart(h, a[0], a[1], b[0], b[1]);
        assert Up(h, a)[1..] == Up(h, a[2..]) && Up(h, b)[1..] == Up(h, b[2..]);
        UpIsInjective(h, a[2..], b[2..]);
        assert a == [a[0], a[1]] + a[2..] && b == [b[0], b[1]] + b[2..];
      }
    }
  }

  /** Among lists of one length the root determines the list. */
  lemma {:induction false} EqualRootsEqualLeaves(h: Hashing, a: seq<Hash>, b: seq<Hash>)
    requires PairsHashApart(h) && |a| == |b| && Root(h, a) == Root(h, b)
    ensures a == b
    decreases |a|
  {
    if |a| > 1 {
      RootOfLayer(h, a);
      RootOfLayer(h, b);
      EqualRootsEqualLeaves(h, Up(h, a), Up(h, b));
      UpIsInjective(h, a, b);
    }
  }

  /** Without the length it does not: repeating an odd last leaf keeps the root, whatever the hash. */
  lemma RepeatedLastLeaf(h: Hashing, leaves: seq<Hash>)
    requires |leaves| > 1 && |leaves| % 2 == 1
    ensures Root(h, leaves + [leaves[|leaves| - 1]]) == Root(h, leaves)
  {
    var longer := leaves + [leaves[|leaves| - 1]];
    RootOfLayer(h, leaves);
    RootOfLayer(h, longer);
    assert Up(h, longer) == Up(h, leaves);
  }
}
