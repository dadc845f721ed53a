// Merkle trees (block/block.js) and partial trees with their verifier (block/merkleblock.js).

module MerkleTree {
  import opened Bytes

  // Leaves and the hash of a concatenated pair.
  datatype Tree = Tree(leaves: seq<bytes>, hash: bytes -> bytes)

  const NULL_HASH: bytes := seq(32, _ => 0)

  // ----- levels -----

  // The i-th node above a level; an odd last element is paired with itself.
  function PairAt(s: seq<bytes>, i: nat, hash: bytes -> bytes): bytes
    requires 2 * i < |s|
  {
    hash(s[2 * i] + s[if 2 * i + 1 < |s| then 2 * i + 1 else |s| - 1])
  }

  function Pairs(s: seq<bytes>, hash: bytes -> bytes): (r: seq<bytes>)
    ensures |r| == (|s| + 1) / 2
  {
    seq((|s| + 1) / 2, i requires 0 <= i < (|s| + 1) / 2 => PairAt(s, i, hash))
  }

  function Level(t: Tree, h: nat): seq<bytes>
  {
    if h == 0 then t.leaves else Pairs(Level(t, h - 1), t.hash)
  }

  // All levels from this one up, one after the other.
  function Flat(s: seq<bytes>, hash: bytes -> bytes): seq<bytes>
    decreases |s|
  {
    if |s| <= 1 then s else s + Flat(Pairs(s, hash), hash)
  }

  // How many nodes stand h levels above n leaves.
  function Width(n: nat, h: nat): nat
  {
    if h == 0 then n else (Width(n, h - 1) + 1) / 2
  }

  function Height(n: nat): nat
  {
    if n <= 1 then 0 else 1 + Height((n + 1) / 2)
  }

  // A node from the top down; one without a right child pairs its left child with itself.
  function Node(t: Tree, h: nat, pos: nat): bytes
    requires pos < Width(|t.leaves|, h)
  {
    if h == 0 then t.leaves[pos]
    else
      var left := Node(t, h - 1, 2 * pos);
      var right := if 2 * pos + 1 < Width(|t.leaves|, h - 1) then Node(t, h - 1, 2 * pos + 1) else left;
      t.hash(left + right)
  }

  function Root(t: Tree): bytes
    requires t.leaves != []
  {
    WidthAtHeight(|t.leaves|);
    Node(t, Height(|t.leaves|), 0)
  }

  lemma {:induction false} WidthShift(n: nat, h: nat)
    ensures Width((n + 1) / 2, h) == Width(n, h + 1)
  {
    if h > 0 {
      WidthShift(n, h - 1);
    }
  }

  lemma {:induction false} WidthAtHeight(n: nat)
    requires n > 0
    ensures Width(n, Height(n)) == 1
    ensures forall h :: 0 <= h < Height(n) ==> Width(n, h) > 1
    decreases n
  {
    if n > 1 {
      WidthAtHeight((n + 1) / 2);
      WidthShift(n, Height((n + 1) / 2));
      forall h | 0 <= h < Height(n) ensures Width(n, h) > 1 {
        if h > 0 { WidthShift(n, h - 1); }
      }
    }
  }

  // Every level has the width of its height, and its nodes are those of the tree.
  lemma {:induction false} LevelWidth(t: Tree, h: nat)
    ensures |Level(t, h)| == Width(|t.leaves|, h)
  {
    if h > 0 {
      LevelWidth(t, h - 1);
    }
  }

  lemma LevelAbove(t: Tree, h: nat, pos: nat)
    requires h > 0 && 2 * pos < |Level(t, h - 1)|
    ensures pos < |Level(t, h)| && Level(t, h)[pos] == PairAt(Level(t, h - 1), pos, t.hash)
  {
  }

  lemma NodeAbove(t: Tree, h: nat, pos: nat)
    requires h > 0 && pos < Width(|t.leaves|, h)
    ensures 2 * pos < Width(|t.leaves|, h - 1)
    ensures var left := Node(t, h - 1, 2 * pos);
      var right := if 2 * pos + 1 < Width(|t.leaves|, h - 1) then Node(t, h - 1, 2 * pos + 1) else left;
      Node(t, h, pos) == t.hash(left + right)
  {
  }

  lemma PairOf(s: seq<bytes>, i: nat, hash: bytes -> bytes, left: bytes, right: bytes)
    requires 2 * i < |s| && s[2 * i] == left
    requires if 2 * i + 1 < |s| then s[2 * i + 1] == right else right == left
    ensures PairAt(s, i, hash) == hash(left + right)
  {
  }

  ghost predicate LevelHas(t: Tree, h: nat, pos: nat, node: bytes)
  {
    pos < |Level(t, h)| && Level(t, h)[pos] == node
  }

  lemma LevelStep(t: Tree, h: nat, pos: nat, left: bytes, right: bytes)
    requires h > 0 && LevelHas(t, h - 1, 2 * pos, left)
    requires if 2 * pos + 1 < |Level(t, h - 1)| then LevelHas(t, h - 1, 2 * pos + 1, right) else right == left
    ensures LevelHas(t, h, pos, t.hash(left + right))
  {
    LevelAbove(t, h, pos);
    PairOf(Level(t, h - 1), pos, t.hash, left, right);
  }

  lemma LevelNodeStep(t: Tree, h: nat, pos: nat)
    requires h > 0 && pos < Width(|t.leaves|, h) && 2 * pos < Width(|t.leaves|, h - 1)
    requires LevelHas(t, h - 1, 2 * pos, Node(t, h - 1, 2 * pos))
    requires 2 * pos + 1 < Width(|t.leaves|, h - 1) ==> LevelHas(t, h - 1, 2 * pos + 1, Node(t, h - 1, 2 * pos + 1))
    requires |Level(t, h - 1)| == Width(|t.leaves|, h - 1)
    ensures LevelHas(t, h, pos, Node(t, h, pos))
  {
    NodeAbove(t, h, pos);
    var left := Node(t, h - 1, 2 * pos);
    LevelStep(t, h, pos, left, if 2 * pos + 1 < Width(|t.leaves|, h - 1) then Node(t, h - 1, 2 * pos + 1) else left);
  }

  lemma HalfPosition(n: nat, h: nat, pos: nat)
    requires h > 0 && pos < Width(n, h)
    ensures 2 * pos < Width(n, h - 1)
  {
  }

  lemma {:induction false} LevelNode(t: Tree, h: nat, pos: nat)
    requires pos < Width(|t.leaves|, h)
    ensures LevelHas(t, h, pos, Node(t, h, pos))
    decreases h, 1
  {
    if h > 0 {
      HalfPosition(|t.leaves|, h, pos);
      LevelNode(t, h - 1, 2 * pos);
      RightLevelNode(t, h, pos);
      LevelWidth(t, h - 1);
      LevelNodeStep(t, h, pos);
    }
  }

  lemma {:induction false} RightLevelNode(t: Tree, h: nat, pos: nat)
    requires h > 0
    ensures 2 * pos + 1 < Width(|t.leaves|, h - 1) ==> LevelHas(t, h - 1, 2 * pos + 1, Node(t, h - 1, 2 * pos + 1))
    decreases h, 0
  {
    if 2 * pos + 1 < Width(|t.leaves|, h - 1) {
      LevelNode(t, h - 1, 2 * pos + 1);
    }
  }

  // ----- widths are rounded-up quotients -----

  function Pow2(k: nat): (p: nat)
    ensures p > 0
  {
    if k == 0 then 1 else 2 * Pow2(k - 1)
  }

  lemma {:induction false} WidthBounds(n: nat, h: nat)
    requires n > 0
    ensures Width(n, h) > 0 && (Width(n, h) - 1) * Pow2(h) < n <= Width(n, h) * Pow2(h)
  {
    if h > 0 {
      WidthBounds(n, h - 1);
      Doubled(Width(n, h - 1), Width(n, h), Pow2(h - 1));
    }
  }

  lemma Doubled(w: nat, half: nat, p: nat)
    requires half == (w + 1) / 2 && w > 0
    ensures w * p <= half * (2 * p) && (half - 1) * (2 * p) <= (w - 1) * p
  {
    assert w <= 2 * half && 2 * half - 2 <= w - 1;
    MulAssoc(half, 2, p);
    MulAssoc(half - 1, 2, p);
    MulMonotone(p, w, 2 * half);
    MulMonotone(p, 2 * half - 2, w - 1);
  }

  lemma QuotientUnique(n: nat, p: nat, w: nat)
    requires p > 0 && w > 0 && (w - 1) * p < n <= w * p
    ensures (n + p - 1) / p == w
  {
    var x := n + p - 1;
    assert x == (x / p) * p + x % p;
    assert w * p <= x < w * p + p;
    if x / p < w { MulMonotone(p, x / p + 1, w); }
    if x / p > w { MulMonotone(p, w + 1, x / p); }
  }

  lemma WidthIsCeiling(n: nat, h: nat)
    requires n > 0
    ensures Width(n, h) == (n + Pow2(h) - 1) / Pow2(h)
  {
    WidthBounds(n, h);
    QuotientUnique(n, Pow2(h), Width(n, h));
  }

  // ----- the flat array -----

  // How many nodes stand below level h.
  function Offset(n: nat, h: nat): nat
  {
    if h == 0 then 0 else Offset(n, h - 1) + Width(n, h - 1)
  }

  lemma {:induction false} OffsetShift(n: nat, h: nat)
    ensures Offset(n, h + 1) == n + Offset((n + 1) / 2, h)
  {
    if h > 0 {
      OffsetShift(n, h - 1);
      WidthShift(n, h - 1);
    } else {
      assert Offset(n, 1) == Offset(n, 0) + Width(n, 0);
    }
  }

  lemma {:induction false} LevelShift(t: Tree, h: nat)
    ensures Level(Tree(Pairs(t.leaves, t.hash), t.hash), h) == Level(t, h + 1)
  {
    if h > 0 {
      LevelShift(t, h - 1);
    } else {
      assert Level(t, 1) == Pairs(Level(t, 0), t.hash);
    }
  }

  lemma {:induction false} FlatLength(t: Tree)
    requires t.leaves != []
    ensures |Flat(t.leaves, t.hash)| == Offset(|t.leaves|, Height(|t.leaves|)) + 1
    decreases |t.leaves|
  {
    var n := |t.leaves|;
    if n > 1 {
      FlatLength(Tree(Pairs(t.leaves, t.hash), t.hash));
      OffsetShift(n, Height((n + 1) / 2));
    }
  }

  // In the array of all levels, level h is the stretch of its width behind the levels below it.
  lemma {:induction false} FlatLevels(t: Tree, h: nat)
    requires t.leaves != [] && h <= Height(|t.leaves|)
    ensures Stands(Flat(t.leaves, t.hash), Offset(|t.leaves|, h), Level(t, h))
    decreases |t.leaves|
  {
    var n := |t.leaves|;
    if h > 0 {
      var up := Tree(Pairs(t.leaves, t.hash), t.hash);
      FlatLevels(up, h - 1);
      LevelsBehindLeaves(t, up, h);
    } else {
      LeavesStand(t);
    }
  }

  lemma LevelsBehindLeaves(t: Tree, up: Tree, h: nat)
    requires 0 < h <= Height(|t.leaves|) && up == Tree(Pairs(t.leaves, t.hash), t.hash)
    requires Stands(Flat(up.leaves, t.hash), Offset(|up.leaves|, h - 1), Level(up, h - 1))
    ensures Stands(Flat(t.leaves, t.hash), Offset(|t.leaves|, h), Level(t, h))
  {
    OffsetShift(|t.leaves|, h - 1);
    LevelShift(t, h - 1);
    StandsBehind(t.leaves, Flat(up.leaves, t.hash), Offset(|up.leaves|, h - 1), Level(t, h));
  }

  lemma LeavesStand(t: Tree)
    requires t.leaves != []
    ensures Stands(Flat(t.leaves, t.hash), 0, t.leaves)
  {
  }

  ghost predicate Stands<T>(f: seq<T>, at: nat, part: seq<T>)
  {
    at + |part| <= |f| && f[at..at + |part|] == part
  }

  lemma StandsParts<T>(f: seq<T>, at: nat, xs: seq<T>, ys: seq<T>)
    requires Stands(f, at, xs + ys)
    ensures Stands(f, at, xs) && Stands(f, at + |xs|, ys)
  {
    var both := f[at..at + |xs + ys|];
    assert both[..|xs|] == xs && both[|xs|..] == ys;
    assert f[at..at + |xs|] == both[..|xs|];
    assert f[at + |xs|..at + |xs| + |ys|] == both[|xs|..];
  }

  lemma StandsBehind(s: seq<bytes>, f: seq<bytes>, at: nat, level: seq<bytes>)
    requires Stands(f, at, level)
    ensures Stands(s + f, |s| + at, level)
  {
    assert (s + f)[|s| + at..|s| + at + |level|] == f[at..at + |level|];
  }

  // The last entry of the array is the root of the tree.
  lemma FlatEndsInRoot(t: Tree)
    requires t.leaves != []
    ensures Flat(t.leaves, t.hash) != []
    ensures Flat(t.leaves, t.hash)[|Flat(t.leaves, t.hash)| - 1] == Root(t)
  {
    var n := |t.leaves|;
    WidthAtHeight(n);
    FlatLevels(t, Height(n));
    FlatLength(t);
    LevelWidth(t, Height(n));
    LevelNode(t, Height(n), 0);
    var f := Flat(t.leaves, t.hash);
    assert f[Offset(n, Height(n))..Offset(n, Height(n)) + 1][0] == f[|f| - 1];
  }

  // Pushes the level above the one that ends the array, which begins at j.
  method PushLevel(tree: seq<bytes>, j: nat, hash: bytes -> bytes) returns (r: seq<bytes>)
    requires j < |tree|
    ensures r == tree + Pairs(tree[j..], hash)
  {
    r := tree;
    ghost var level := tree[j..];
    var size, i := |tree| - j, 0;
    while i < size
      invariant 0 <= i <= size + 1 && i % 2 == 0
      invariant r == tree + Pairs(level, hash)[..i / 2]
    {
      var i2 := if i + 1 < size - 1 then i + 1 else size - 1;
      var buf := r[j + i] + r[j + i2];
      assert r[j + i] == level[i] && r[j + i2] == level[i2];
      assert hash(buf) == PairAt(level, i / 2, hash);
      r := r + [hash(buf)];
      i := i + 2;
    }
    assert Pairs(level, hash)[..i / 2] == Pairs(level, hash);
  }

  lemma FlatStep(tree: seq<bytes>, j: nat, hash: bytes -> bytes)
    requires j + 1 < |tree|
    ensures tree[..j] + Flat(tree[j..], hash) == tree + Flat(Pairs(tree[j..], hash), hash)
  {
    assert tree[..j] + (tree[j..] + Flat(Pairs(tree[j..], hash), hash)) == (tree[..j] + tree[j..]) + Flat(Pairs(tree[j..], hash), hash);
    assert tree[..j] + tree[j..] == tree;
  }

  // The array as the code fills it: j is where the level being read begins.
  method GetMerkleTree(hashes: seq<bytes>, hash: bytes -> bytes) returns (tree: seq<bytes>)
    ensures tree == if hashes == [] then [NULL_HASH] else Flat(hashes, hash)
  {
    if hashes == [] { return [NULL_HASH]; }
    tree := hashes;
    var size, j := |hashes|, 0;
    while size > 1
      invariant 0 < size && j + size == |tree|
      invariant Flat(hashes, hash) == tree[..j] + Flat(tree[j..], hash)
    {
      ghost var level, before := tree[j..], tree;
      tree := PushLevel(tree, j, hash);
      j := j + size;
      size := (size + 1) / 2;
      assert tree[..j] == before && tree[j..] == Pairs(level, hash);
      FlatStep(before, j - |level|, hash);
    }
    assert tree == tree[..j] + tree[j..];
  }

  method GetMerkleRoot(hashes: seq<bytes>, hash: bytes -> bytes) returns (root: bytes)
    ensures root == if hashes == [] then NULL_HASH else Root(Tree(hashes, hash))
  {
    var tree := GetMerkleTree(hashes, hash);
    if hashes != [] {
      FlatEndsInRoot(Tree(hashes, hash));
    }
    return tree[|tree| - 1];
  }
}
