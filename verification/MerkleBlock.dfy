// Partial trees: what the verifier accepts, and what a prover that follows section "Partial Merkle branch format"
// of BIP 37 sends it.

module PartialTree {
  import opened Bytes
  import opened ScriptNum
  import opened MerkleTree

  // A message as it arrives: how many transactions the block claims to have, hashes, and flag bytes.
  datatype Message = Message(n: nat, hashes: seq<bytes>, flags: seq<byte>)

  // A bit past the end reads as 0.
  predicate Bit(flags: seq<byte>, i: nat)
  {
    i / 8 < |flags| && Shr(flags[i / 8], i % 8) % 2 == 1
  }

  // (n + (1 << height) - 1) >> height, in 32-bit arithmetic; no height the code asks about exceeds 31
  function CalcTreeWidth(n: nat, height: nat): int
    requires height <= 31
  {
    Shr(ToInt32(n + ToInt32(Pow2(height)) - 1), height)
  }

  // An arithmetic shift to the right.
  function Shr(a: int, k: nat): int
    decreases k
  {
    if k == 0 then a else Shr(a / 2, k - 1)
  }

  // What a walk leaves: the hash of its node, both cursors, the leaves found with their positions, and the strings it
  // hashed. A walk that ran out of bits or hashes returns null; its caller, if it is a walk, throws.
  datatype Walk =
    | Walked(hash: bytes, bits: nat, used: nat, found: seq<(nat, bytes)>, hashed: set<bytes>)
    | Null(used: nat)
    | Threw

  function Traverse(m: Message, hash: bytes -> bytes, depth: nat, pos: nat, bits: nat, used: nat): Walk
    requires depth <= 31
    decreases depth
  {
    if bits > |m.flags| * 8 then Null(used)
    else if depth == 0 || !Bit(m.flags, bits) then
      if used >= |m.hashes| then Null(used)
      else
        var found := if depth == 0 && Bit(m.flags, bits) then [(pos, m.hashes[used])] else [];
        Walked(m.hashes[used], bits + 1, used + 1, found, {})
    else
      var left := Traverse(m, hash, depth - 1, 2 * pos, bits + 1, used);
      if left.Threw? then Threw
      else if 2 * pos + 1 >= CalcTreeWidth(m.n, depth - 1) then Combined(hash, left, left, [])
      else if left.Null? then Threw
      else
        var right := Traverse(m, hash, depth - 1, 2 * pos + 1, left.bits, left.used);
        if right.Walked? then Combined(hash, left, right, right.found) else Threw
  }

  // The walk of a parent over the walks of its children; more is what the right child adds to the leaves found.
  function Combined(hash: bytes -> bytes, left: Walk, right: Walk, more: seq<(nat, bytes)>): Walk
  {
    if left.Walked? && right.Walked? then
      Walked(hash(left.hash + right.hash), right.bits, right.used, left.found + more,
             left.hashed + right.hashed + {left.hash + right.hash})
    else Threw
  }

  function CalcTreeHeight(n: nat, from: nat): (h: nat)
    requires from <= 31
    ensures h <= 31
    decreases 31 - from
  {
    WidthAtMost31(n);
    if CalcTreeWidth(n, from) > 1 then CalcTreeHeight(n, from + 1) else from
  }

  lemma {:induction false} ShrBelow(a: int, k: nat)
    requires a < Pow2(k)
    ensures Shr(a, k) <= 0
    decreases k
  {
    if k > 0 {
      ShrBelow(a / 2, k - 1);
    }
  }

  lemma WidthAtMost31(n: nat)
    ensures CalcTreeWidth(n, 31) <= 1
  {
    Powers2();
    ShrBelow(ToInt32(n + ToInt32(Pow2(31)) - 1), 31);
  }

  datatype Answer = Accepts | Rejects | Throws

  function WalkOf(m: Message, hash: bytes -> bytes): Walk
  {
    Traverse(m, hash, CalcTreeHeight(m.n, 0), 0, 0, 0)
  }

  // Without a root hash to compare, comparing throws.
  function ValidMerkleTree(m: Message, hash: bytes -> bytes, root: bytes): Answer
  {
    if |m.hashes| > m.n || |m.flags| * 8 < |m.hashes| then Rejects
    else match WalkOf(m, hash)
      case Threw => Throws
      case Null(used) => if used != |m.hashes| then Rejects else Throws
      case Walked(h, _, used, _, _) => if used == |m.hashes| && h == root then Accepts else Rejects
  }

  // ----- widths in 32-bit arithmetic -----

  lemma Powers2()
    ensures Pow2(30) == 0x4000_0000 && Pow2(31) == 0x8000_0000
  {
    assert Pow2(8) == 256 by { assert Pow2(4) == 16; }
    assert Pow2(12) == 0x1000;
    assert Pow2(16) == 0x1_0000;
    assert Pow2(20) == 0x10_0000;
    assert Pow2(24) == 0x100_0000;
    assert Pow2(28) == 0x1000_0000;
  }

  lemma {:induction false} Pow2Monotone(a: nat, b: nat)
    requires a <= b
    ensures Pow2(a) <= Pow2(b)
    decreases b
  {
    if a < b { Pow2Monotone(a, b - 1); }
  }

  lemma {:induction false} ShiftedWidth(n: nat, h: nat)
    requires n > 0
    ensures Shr(n + Pow2(h) - 1, h) == Width(n, h)
  {
    if h > 0 {
      ShiftedWidth((n + 1) / 2, h - 1);
      WidthShift(n, h - 1);
    }
  }

  // For up to 2^30 transactions nothing overflows: the width is the number of nodes at that height.
  lemma WidthIsExact(n: nat, h: nat)
    requires 0 < n <= 0x4000_0000 && h <= 30
    ensures CalcTreeWidth(n, h) == Width(n, h)
  {
    PowerBound(h);
    NoOverflow(n, Pow2(h));
    ShiftedWidth(n, h);
    WidthUnfolds(n, h, n + Pow2(h) - 1);
  }

  lemma WidthUnfolds(n: nat, h: nat, w: int)
    requires h <= 31 && ToInt32(n + ToInt32(Pow2(h)) - 1) == w
    ensures CalcTreeWidth(n, h) == Shr(w, h)
  {
  }

  lemma PowerBound(h: nat)
    requires h <= 30
    ensures Pow2(h) <= 0x4000_0000
  {
    Powers2();
    Pow2Monotone(h, 30);
  }

  lemma NoOverflow(n: nat, p: nat)
    requires 0 < n <= 0x4000_0000 && 0 < p <= 0x4000_0000
    ensures ToInt32(n + ToInt32(p) - 1) == n + p - 1
  {
  }

  lemma HeightBound(n: nat, h: nat)
    requires 0 < n <= Pow2(h)
    ensures Height(n) <= h
    decreases h
  {
    if n > 1 {
      HeightBound((n + 1) / 2, h - 1);
    }
  }

  lemma {:induction false} HeightFrom(n: nat, from: nat)
    requires 0 < n <= 0x4000_0000 && from <= Height(n) <= 30
    ensures CalcTreeHeight(n, from) == Height(n)
    decreases Height(n) - from
  {
    WidthAtHeight(n);
    WidthIsExact(n, from);
    if from < Height(n) {
      HeightFrom(n, from + 1);
    }
  }

  // The height the loop finds is the number of levels above the leaves.
  lemma HeightIsExact(n: nat)
    requires 0 < n <= 0x4000_0000
    ensures CalcTreeHeight(n, 0) == Height(n) <= 30
  {
    Powers2();
    HeightBound(n, 30);
    HeightFrom(n, 0);
  }

  // ----- the prover -----

  // The block and the transactions asked for.
  datatype Query = Query(t: Tree, marks: seq<bool>)
  {
    predicate Valid() { 0 < |t.leaves| == |marks| <= 0x4000_0000 }
    function N(): nat { |t.leaves| }
  }

  predicate HasRight(q: Query, h: nat, pos: nat)
    requires h > 0
  {
    2 * pos + 1 < Width(q.N(), h - 1)
  }

  ghost predicate InTree(q: Query, h: nat, pos: nat) { q.Valid() && pos < Width(q.N(), h) }

  // Whether a node is the parent of a match.
  predicate Any(q: Query, h: nat, pos: nat)
    requires InTree(q, h, pos)
  {
    if h == 0 then q.marks[pos]
    else Any(q, h - 1, 2 * pos) || (HasRight(q, h, pos) && Any(q, h - 1, 2 * pos + 1))
  }

  function BitsOf(q: Query, h: nat, pos: nat): seq<bool>
    requires InTree(q, h, pos)
  {
    if h == 0 || !Any(q, h, pos) then [Any(q, h, pos)]
    else [true] + BitsOf(q, h - 1, 2 * pos) + if HasRight(q, h, pos) then BitsOf(q, h - 1, 2 * pos + 1) else []
  }

  function HashesOf(q: Query, h: nat, pos: nat): seq<bytes>
    requires InTree(q, h, pos)
  {
    if h == 0 || !Any(q, h, pos) then [Node(q.t, h, pos)]
    else HashesOf(q, h - 1, 2 * pos) + if HasRight(q, h, pos) then HashesOf(q, h - 1, 2 * pos + 1) else []
  }

  function FoundAt(q: Query, h: nat, pos: nat): seq<(nat, bytes)>
    requires InTree(q, h, pos)
  {
    if h == 0 then if q.marks[pos] then [(pos, q.t.leaves[pos])] else []
    else if !Any(q, h, pos) then []
    else FoundAt(q, h - 1, 2 * pos) + if HasRight(q, h, pos) then FoundAt(q, h - 1, 2 * pos + 1) else []
  }

  // The marked leaves at positions from lo to hi, in order.
  function Matches(q: Query, lo: nat, hi: nat): seq<(nat, bytes)>
    requires q.Valid() && hi <= q.N()
  {
    if lo >= hi then []
    else Matches(q, lo, hi - 1) + if q.marks[hi - 1] then [(hi - 1, q.t.leaves[hi - 1])] else []
  }

  // Where the leaves under a node begin.
  function Start(n: nat, h: nat, pos: nat): nat
  {
    if pos * Pow2(h) < n then pos * Pow2(h) else n
  }

  function Under(q: Query, h: nat, pos: nat): seq<(nat, bytes)>
    requires q.Valid()
  {
    Matches(q, Start(q.N(), h, pos), Start(q.N(), h, pos + 1))
  }

  lemma StartSplits(n: nat, h: nat, pos: nat)
    requires h > 0
    ensures Start(n, h, pos) == Start(n, h - 1, 2 * pos)
    ensures Start(n, h, pos + 1) == Start(n, h - 1, 2 * pos + 2)
    ensures Start(n, h, pos) <= Start(n, h - 1, 2 * pos + 1) <= Start(n, h, pos + 1)
  {
    var p := Pow2(h - 1);
    MulAssoc(pos, 2, p);
    MulAssoc(pos + 1, 2, p);
    MulMonotone(p, 2 * pos, 2 * pos + 1);
    MulMonotone(p, 2 * pos + 1, 2 * pos + 2);
  }

  // Nothing lies under a right child that is not there; something under every node that is.
  lemma NodesHaveLeaves(n: nat, h: nat, pos: nat)
    requires n > 0
    ensures pos < Width(n, h) ==> Start(n, h, pos) < Start(n, h, pos + 1)
    ensures pos >= Width(n, h) ==> Start(n, h, pos) == n
  {
    WidthBounds(n, h);
    StartsBefore(n, Width(n, h), Pow2(h), pos);
  }

  lemma StartsBefore(n: nat, w: nat, p: nat, pos: nat)
    requires p > 0 && w > 0 && (w - 1) * p < n <= w * p
    ensures pos < w ==> pos * p < n && pos * p < (pos + 1) * p
    ensures pos >= w ==> n <= pos * p
  {
    if pos < w {
      MulMonotone(p, pos, w - 1);
      assert (pos + 1) * p == pos * p + p;
    } else {
      MulMonotone(p, w, pos);
    }
  }

  lemma {:induction false} MatchesSplit(q: Query, lo: nat, mid: nat, hi: nat)
    requires q.Valid() && lo <= mid <= hi <= q.N()
    ensures Matches(q, lo, hi) == Matches(q, lo, mid) + Matches(q, mid, hi)
  {
    if mid < hi {
      MatchesSplit(q, lo, mid, hi - 1);
    }
  }

  // What is under a node is under its children.
  lemma UnderSplits(q: Query, h: nat, pos: nat)
    requires InTree(q, h, pos) && h > 0
    ensures Under(q, h, pos) == Under(q, h - 1, 2 * pos) + if HasRight(q, h, pos) then Under(q, h - 1, 2 * pos + 1) else []
  {
    StartSplits(q.N(), h, pos);
    MatchesSplit(q, Start(q.N(), h, pos), Start(q.N(), h - 1, 2 * pos + 1), Start(q.N(), h, pos + 1));
    NodesHaveLeaves(q.N(), h - 1, 2 * pos + 1);
  }

  lemma UnderLeaf(q: Query, pos: nat)
    requires InTree(q, 0, pos)
    ensures Under(q, 0, pos) == if q.marks[pos] then [(pos, q.t.leaves[pos])] else []
  {
    assert Start(q.N(), 0, pos) == pos && Start(q.N(), 0, pos + 1) == pos + 1;
    assert Matches(q, pos, pos) == [];
  }

  // A node is the parent of a match exactly when a marked leaf lies under it.
  lemma {:induction false} AnyIffUnder(q: Query, h: nat, pos: nat)
    requires InTree(q, h, pos)
    ensures Any(q, h, pos) <==> Under(q, h, pos) != []
  {
    if h == 0 {
      UnderLeaf(q, pos);
    } else {
      HalfPosition(q.N(), h, pos);
      UnderSplits(q, h, pos);
      AnyIffUnder(q, h - 1, 2 * pos);
      if HasRight(q, h, pos) { AnyIffUnder(q, h - 1, 2 * pos + 1); }
    }
  }

  // Pruning loses no match.
  lemma {:induction false} FoundIsUnder(q: Query, h: nat, pos: nat)
    requires InTree(q, h, pos)
    ensures FoundAt(q, h, pos) == Under(q, h, pos)
  {
    if h == 0 {
      UnderLeaf(q, pos);
    } else if !Any(q, h, pos) {
      AnyIffUnder(q, h, pos);
    } else {
      HalfPosition(q.N(), h, pos);
      UnderSplits(q, h, pos);
      FoundIsUnder(q, h - 1, 2 * pos);
      if HasRight(q, h, pos) { FoundIsUnder(q, h - 1, 2 * pos + 1); }
    }
  }

  // ----- sizes -----

  lemma {:induction false} BuiltSizes(q: Query, h: nat, pos: nat)
    requires InTree(q, h, pos)
    ensures 0 < |HashesOf(q, h, pos)| <= |BitsOf(q, h, pos)|
    ensures |HashesOf(q, h, pos)| <= Start(q.N(), h, pos + 1) - Start(q.N(), h, pos)
  {
    NodesHaveLeaves(q.N(), h, pos);
    if h > 0 && Any(q, h, pos) {
      HalfPosition(q.N(), h, pos);
      StartSplits(q.N(), h, pos);
      BuiltSizes(q, h - 1, 2 * pos);
      if HasRight(q, h, pos) { BuiltSizes(q, h - 1, 2 * pos + 1); }
    }
  }

  // ----- flag bytes -----

  // Bits packed eight to a byte, least significant first.
  function ByteOf(bits: seq<bool>): nat
  {
    if bits == [] then 0 else (if bits[0] then 1 else 0) + 2 * ByteOf(bits[1..])
  }

  lemma {:induction false} ByteOfBound(bits: seq<bool>)
    ensures ByteOf(bits) < Pow2(|bits|)
  {
    if bits != [] { ByteOfBound(bits[1..]); }
  }

  lemma {:induction false} BitOfByte(bits: seq<bool>, i: nat)
    requires i < |bits|
    ensures Shr(ByteOf(bits), i) % 2 == 1 <==> bits[i]
    decreases i
  {
    if i > 0 {
      BitOfByte(bits[1..], i - 1);
    }
  }

  function Pack(bits: seq<bool>): (flags: seq<byte>)
    ensures |flags| == (|bits| + 7) / 8
    decreases |bits|
  {
    if bits == [] then []
    else
      var k := if |bits| < 8 then |bits| else 8;
      [PackByte(bits[..k])] + Pack(bits[k..])
  }

  function PackByte(bits: seq<bool>): byte
    requires |bits| <= 8
  {
    ByteOfBound(bits);
    Pow2Monotone(|bits|, 8);
    assert Pow2(8) == 256;
    ByteOf(bits)
  }

  lemma {:induction false} PackedBit(bits: seq<bool>, i: nat)
    requires i < |bits|
    ensures Bit(Pack(bits), i) == bits[i]
    decreases |bits|
  {
    var k := if |bits| < 8 then |bits| else 8;
    if i < 8 {
      BitOfByte(bits[..k], i);
      BitOfFirst(PackByte(bits[..k]), Pack(bits[k..]), i);
    } else {
      PackedBit(bits[8..], i - 8);
      BitOfRest(PackByte(bits[..8]), Pack(bits[8..]), i - 8);
    }
  }

  lemma BitOfFirst(b: byte, flags: seq<byte>, i: nat)
    requires i < 8
    ensures Bit([b] + flags, i) <==> Shr(b, i) % 2 == 1
  {
    assert i / 8 == 0 && i % 8 == i;
  }

  lemma BitOfRest(b: byte, flags: seq<byte>, i: nat)
    ensures Bit([b] + flags, i + 8) == Bit(flags, i)
  {
    assert (i + 8) / 8 == i / 8 + 1 && (i + 8) % 8 == i % 8;
  }

  // ----- completeness -----

  // The bits of the message, read one by one.
  ghost predicate Reads(all: seq<bool>, flags: seq<byte>)
  {
    |all| == 8 * |flags| && forall i {:trigger Bit(flags, i)} :: 0 <= i < |all| ==> Bit(flags, i) == all[i]
  }

  // Bits and hashes stand in what is sent from these cursors on.
  ghost predicate Sent(all: seq<bool>, hashes: seq<bytes>, bits: nat, used: nat, bs: seq<bool>, hs: seq<bytes>)
  {
    Stands(all, bits, bs) && Stands(hashes, used, hs)
  }

  lemma FirstStands<T>(f: seq<T>, at: nat, part: seq<T>)
    requires Stands(f, at, part) && part != []
    ensures at < |f| && f[at] == part[0]
  {
    assert f[at] == f[at..at + |part|][0];
  }

  type Sender = (nat, nat, seq<bool>, seq<bytes>) -> bool

  ghost predicate Sends(sent: Sender, all: seq<bool>, hashes: seq<bytes>)
  {
    forall bits: nat, used: nat, bs: seq<bool>, hs: seq<bytes> {:trigger Sent(all, hashes, bits, used, bs, hs)} ::
      sent(bits, used, bs, hs) == Sent(all, hashes, bits, used, bs, hs)
  }

  lemma SentParts(all: seq<bool>, hashes: seq<bytes>, sent: Sender, bits: nat, used: nat, bs: seq<bool>, hs: seq<bytes>,
                  lb: seq<bool>, rb: seq<bool>, lh: seq<bytes>, rh: seq<bytes>)
    requires Sends(sent, all, hashes) && sent(bits, used, bs, hs) && bs == [true] + lb + rb && hs == lh + rh
    ensures bits < |all| && all[bits]
    ensures sent(bits + 1, used, lb, lh) && sent(bits + 1 + |lb|, used + |lh|, rb, rh)
  {
    assert Sent(all, hashes, bits, used, bs, hs);
    FirstStands(all, bits, bs);
    StandsParts(all, bits, [true] + lb, rb);
    StandsParts(all, bits, [true], lb);
    StandsParts(hashes, used, lh, rh);
    assert Sent(all, hashes, bits + 1, used, lb, lh);
    assert Sent(all, hashes, bits + 1 + |lb|, used + |lh|, rb, rh);
  }

  // The walks of a message from every node.
  type Walker = (nat, nat, nat, nat) -> Walk

  ghost predicate Walks(walk: Walker, m: Message, hash: bytes -> bytes)
  {
    forall h: nat, pos: nat, bits: nat, used: nat {:trigger Traverse(m, hash, h, pos, bits, used)} ::
      h <= 31 ==> walk(h, pos, bits, used) == Traverse(m, hash, h, pos, bits, used)
  }

  lemma WalkerOf(m: Message, hash: bytes -> bytes) returns (walk: Walker)
    ensures Walks(walk, m, hash)
  {
    walk := (h: nat, pos: nat, bits: nat, used: nat) => if h <= 31 then Traverse(m, hash, h, pos, bits, used) else Threw;
  }

  // The walk over what was sent for a node: its hash, both cursors behind it, and the marked leaves under it, in order.
  ghost predicate Answers(q: Query, w: Walk, h: nat, pos: nat, bits: nat, used: nat)
    requires InTree(q, h, pos)
  {
    && w.Walked? && w.hash == Node(q.t, h, pos)
    && w.bits == bits + |BitsOf(q, h, pos)| && w.used == used + |HashesOf(q, h, pos)|
    && w.found == FoundAt(q, h, pos)
  }

  // A message of the block whose bits are these.
  ghost predicate Carries(q: Query, m: Message, all: seq<bool>, walk: Walker, sent: Sender)
  {
    m.n == q.N() && Reads(all, m.flags) && Walks(walk, m, q.t.hash) && Sends(sent, all, m.hashes)
  }

  lemma {:induction false} TraverseComplete(q: Query, m: Message, all: seq<bool>, walk: Walker, sent: Sender,
                                            h: nat, pos: nat, bits: nat, used: nat)
    requires InTree(q, h, pos) && h <= 31 && Carries(q, m, all, walk, sent)
    requires sent(bits, used, BitsOf(q, h, pos), HashesOf(q, h, pos))
    ensures Answers(q, walk(h, pos, bits, used), h, pos, bits, used)
    decreases h, 1
  {
    if h == 0 || !Any(q, h, pos) {
      StopComplete(q, m, all, walk, sent, h, pos, bits, used);
    } else {
      HalfPosition(q.N(), h, pos);
      DescendSent(q, m, all, sent, h, pos, bits, used);
      TraverseComplete(q, m, all, walk, sent, h - 1, 2 * pos, bits + 1, used);
      RightComplete(q, m, all, walk, sent, h, pos, bits, used, walk(h - 1, 2 * pos, bits + 1, used));
      BothAnswer(q, m, walk, h, pos, bits, used);
    }
  }

  lemma {:induction false} RightComplete(q: Query, m: Message, all: seq<bool>, walk: Walker, sent: Sender,
                                         h: nat, pos: nat, bits: nat, used: nat, left: Walk)
    requires InTree(q, h, pos) && 0 < h <= 31 && Any(q, h, pos) && Carries(q, m, all, walk, sent)
    requires sent(bits, used, BitsOf(q, h, pos), HashesOf(q, h, pos))
    requires 2 * pos < Width(q.N(), h - 1) && Answers(q, left, h - 1, 2 * pos, bits + 1, used)
    ensures HasRight(q, h, pos) ==>
      Answers(q, walk(h - 1, 2 * pos + 1, left.bits, left.used), h - 1, 2 * pos + 1, left.bits, left.used)
    decreases h, 0
  {
    if HasRight(q, h, pos) {
      RightIsSent(q, m, all, sent, h, pos, bits, used, left);
      TraverseComplete(q, m, all, walk, sent, h - 1, 2 * pos + 1, left.bits, left.used);
    }
  }

  lemma BothAnswer(q: Query, m: Message, walk: Walker, h: nat, pos: nat, bits: nat, used: nat)
    requires InTree(q, h, pos) && 0 < h <= 31 && Any(q, h, pos) && 2 * pos < Width(q.N(), h - 1)
    requires m.n == q.N() && Walks(walk, m, q.t.hash) && bits < |m.flags| * 8 && Bit(m.flags, bits)
    requires var left := walk(h - 1, 2 * pos, bits + 1, used);
      && Answers(q, left, h - 1, 2 * pos, bits + 1, used)
      && (HasRight(q, h, pos) ==>
        Answers(q, walk(h - 1, 2 * pos + 1, left.bits, left.used), h - 1, 2 * pos + 1, left.bits, left.used))
    ensures Answers(q, walk(h, pos, bits, used), h, pos, bits, used)
  {
    TraverseDescends(m, q.t.hash, walk, h, pos, bits, used);
    var left := walk(h - 1, 2 * pos, bits + 1, used);
    DescendAnswers(q, h, pos, bits, used, left,
                   if HasRight(q, h, pos) then Some(walk(h - 1, 2 * pos + 1, left.bits, left.used)) else None);
  }

  lemma DescendSent(q: Query, m: Message, all: seq<bool>, sent: Sender, h: nat, pos: nat, bits: nat, used: nat)
    requires InTree(q, h, pos) && h > 0 && Any(q, h, pos) && 2 * pos < Width(q.N(), h - 1)
    requires Reads(all, m.flags) && Sends(sent, all, m.hashes) && sent(bits, used, BitsOf(q, h, pos), HashesOf(q, h, pos))
    ensures bits < |m.flags| * 8 && Bit(m.flags, bits)
    ensures sent(bits + 1, used, BitsOf(q, h - 1, 2 * pos), HashesOf(q, h - 1, 2 * pos))
  {
    SentUnfolds(q, h, pos);
    SentParts(all, m.hashes, sent, bits, used, BitsOf(q, h, pos), HashesOf(q, h, pos),
              BitsOf(q, h - 1, 2 * pos), RightBits(q, h, pos), HashesOf(q, h - 1, 2 * pos), RightHashes(q, h, pos));
  }

  lemma RightIsSent(q: Query, m: Message, all: seq<bool>, sent: Sender, h: nat, pos: nat, bits: nat, used: nat, left: Walk)
    requires InTree(q, h, pos) && h > 0 && Any(q, h, pos) && 2 * pos < Width(q.N(), h - 1) && HasRight(q, h, pos)
    requires Reads(all, m.flags) && Sends(sent, all, m.hashes) && sent(bits, used, BitsOf(q, h, pos), HashesOf(q, h, pos))
    requires Answers(q, left, h - 1, 2 * pos, bits + 1, used)
    ensures sent(left.bits, left.used, BitsOf(q, h - 1, 2 * pos + 1), HashesOf(q, h - 1, 2 * pos + 1))
  {
    SentUnfolds(q, h, pos);
    SentParts(all, m.hashes, sent, bits, used, BitsOf(q, h, pos), HashesOf(q, h, pos),
              BitsOf(q, h - 1, 2 * pos), RightBits(q, h, pos), HashesOf(q, h - 1, 2 * pos), RightHashes(q, h, pos));
    RightIs(q, h, pos);
  }

  lemma RightIs(q: Query, h: nat, pos: nat)
    requires InTree(q, h, pos) && h > 0 && HasRight(q, h, pos)
    ensures RightBits(q, h, pos) == BitsOf(q, h - 1, 2 * pos + 1)
    ensures RightHashes(q, h, pos) == HashesOf(q, h - 1, 2 * pos + 1)
  {
  }

  function RightBits(q: Query, h: nat, pos: nat): seq<bool>
    requires InTree(q, h, pos) && h > 0
  {
    if HasRight(q, h, pos) then BitsOf(q, h - 1, 2 * pos + 1) else []
  }

  function RightHashes(q: Query, h: nat, pos: nat): seq<bytes>
    requires InTree(q, h, pos) && h > 0
  {
    if HasRight(q, h, pos) then HashesOf(q, h - 1, 2 * pos + 1) else []
  }

  lemma SentUnfolds(q: Query, h: nat, pos: nat)
    requires InTree(q, h, pos) && h > 0 && Any(q, h, pos) && 2 * pos < Width(q.N(), h - 1)
    ensures BitsOf(q, h, pos) == [true] + BitsOf(q, h - 1, 2 * pos) + RightBits(q, h, pos)
    ensures HashesOf(q, h, pos) == HashesOf(q, h - 1, 2 * pos) + RightHashes(q, h, pos)
  {
  }

  lemma StopComplete(q: Query, m: Message, all: seq<bool>, walk: Walker, sent: Sender, h: nat, pos: nat, bits: nat, used: nat)
    requires InTree(q, h, pos) && h <= 31 && (h == 0 || !Any(q, h, pos)) && Carries(q, m, all, walk, sent)
    requires sent(bits, used, BitsOf(q, h, pos), HashesOf(q, h, pos))
    ensures Answers(q, walk(h, pos, bits, used), h, pos, bits, used)
  {
    assert walk(h, pos, bits, used) == Traverse(m, q.t.hash, h, pos, bits, used);
    assert Sent(all, m.hashes, bits, used, BitsOf(q, h, pos), HashesOf(q, h, pos));
    FirstStands(all, bits, BitsOf(q, h, pos));
    FirstStands(m.hashes, used, HashesOf(q, h, pos));
    assert BitsOf(q, h, pos) == [Any(q, h, pos)] && HashesOf(q, h, pos) == [Node(q.t, h, pos)];
  }

  lemma TraverseDescends(m: Message, hash: bytes -> bytes, walk: Walker, h: nat, pos: nat, bits: nat, used: nat)
    requires 0 < h <= 31 && bits < |m.flags| * 8 && Bit(m.flags, bits)
    requires 0 < m.n <= 0x4000_0000 && Walks(walk, m, hash) && walk(h - 1, 2 * pos, bits + 1, used).Walked?
    ensures var left := walk(h - 1, 2 * pos, bits + 1, used);
      walk(h, pos, bits, used) == Descended(hash, left,
        if 2 * pos + 1 >= Width(m.n, h - 1) then None else Some(walk(h - 1, 2 * pos + 1, left.bits, left.used)))
  {
    WidthIsExact(m.n, h - 1);
    var left := Traverse(m, hash, h - 1, 2 * pos, bits + 1, used);
    assert left == walk(h - 1, 2 * pos, bits + 1, used);
    assert walk(h, pos, bits, used) == Traverse(m, hash, h, pos, bits, used);
    if 2 * pos + 1 < Width(m.n, h - 1) {
      assert walk(h - 1, 2 * pos + 1, left.bits, left.used) == Traverse(m, hash, h - 1, 2 * pos + 1, left.bits, left.used);
    }
  }

  function WithRight(hash: bytes -> bytes, left: Walk, right: Walk): Walk
  {
    if right.Walked? then Combined(hash, left, right, right.found) else Threw
  }

  // The walk of a parent, given those of its children.
  function Descended(hash: bytes -> bytes, left: Walk, right: Option<Walk>): Walk
    requires left.Walked?
  {
    if right.None? then Combined(hash, left, left, []) else WithRight(hash, left, right.value)
  }

  lemma DescendAnswers(q: Query, h: nat, pos: nat, bits: nat, used: nat, left: Walk, right: Option<Walk>)
    requires InTree(q, h, pos) && 0 < h && Any(q, h, pos) && 2 * pos < Width(q.N(), h - 1)
    requires Answers(q, left, h - 1, 2 * pos, bits + 1, used)
    requires HasRight(q, h, pos) == right.Some?
    requires right.Some? ==> Answers(q, right.value, h - 1, 2 * pos + 1, left.bits, left.used)
    ensures Answers(q, Descended(q.t.hash, left, right), h, pos, bits, used)
  {
    SentUnfolds(q, h, pos);
    NodeAbove(q.t, h, pos);
  }

  // Flags and hashes built for any set of transactions are accepted against the root of the block, and the walk finds
  // exactly the transactions asked for, in order.
  function Built(q: Query): Message
    requires q.Valid()
  {
    WidthAtHeight(q.N());
    Message(q.N(), HashesOf(q, Height(q.N()), 0), Pack(BitsOf(q, Height(q.N()), 0)))
  }

  lemma BuiltIsSent(q: Query, all: seq<bool>)
    requires q.Valid() && InTree(q, Height(q.N()), 0) && Reads(all, Built(q).flags)
    ensures Sent(all, Built(q).hashes, 0, 0, BitsOf(q, Height(q.N()), 0), HashesOf(q, Height(q.N()), 0))
  {
    var bits, hashes := BitsOf(q, Height(q.N()), 0), HashesOf(q, Height(q.N()), 0);
    forall i | 0 <= i < |bits| ensures all[0..|bits|][i] == bits[i] {
      PackedBit(bits, i);
    }
    assert all[0..|bits|] == bits;
    assert hashes[0..|hashes|] == hashes;
  }

  lemma WholeTree(q: Query)
    requires q.Valid()
    ensures InTree(q, Height(q.N()), 0)
    ensures Start(q.N(), Height(q.N()), 0) == 0 && Start(q.N(), Height(q.N()), 1) == q.N()
  {
    WidthAtHeight(q.N());
    NodesHaveLeaves(q.N(), Height(q.N()), 1);
  }

  lemma PartialTreeComplete(q: Query)
    requires q.Valid()
    ensures ValidMerkleTree(Built(q), q.t.hash, Root(q.t)) == Accepts
    ensures WalkOf(Built(q), q.t.hash).Walked? && WalkOf(Built(q), q.t.hash).found == Matches(q, 0, q.N())
  {
    var h := Height(q.N());
    WholeTree(q);
    HeightIsExact(q.N());
    var all := seq(8 * |Built(q).flags|, i requires 0 <= i => Bit(Built(q).flags, i));
    BuiltIsSent(q, all);
    var walk := WalkerOf(Built(q), q.t.hash);
    var sent := (bits: nat, used: nat, bs: seq<bool>, hs: seq<bytes>) => Sent(all, Built(q).hashes, bits, used, bs, hs);
    TraverseComplete(q, Built(q), all, walk, sent, h, 0, 0, 0);
    assert walk(h, 0, 0, 0) == Traverse(Built(q), q.t.hash, h, 0, 0, 0);
    FoundIsUnder(q, h, 0);
    BuiltSizes(q, h, 0);
  }

  // ----- soundness -----

  // Two different strings with the same hash, one of each set.
  ghost predicate Collide(hash: bytes -> bytes, xs: set<bytes>, ys: set<bytes>)
  {
    exists x, y :: x in xs && y in ys && x != y && hash(x) == hash(y)
  }

  // What is hashed to compute a node of the tree.
  function HashedBelow(t: Tree, h: nat, pos: nat): set<bytes>
    requires pos < Width(|t.leaves|, h)
  {
    if h == 0 then {}
    else
      var left := Node(t, h - 1, 2 * pos);
      if 2 * pos + 1 < Width(|t.leaves|, h - 1) then
        HashedBelow(t, h - 1, 2 * pos) + HashedBelow(t, h - 1, 2 * pos + 1) + {left + Node(t, h - 1, 2 * pos + 1)}
      else HashedBelow(t, h - 1, 2 * pos) + {left + left}
  }

  // Every leaf found is the leaf of the block at its position.
  predicate TrueLeaves(leaves: seq<bytes>, found: seq<(nat, bytes)>)
  {
    forall i :: 0 <= i < |found| ==> found[i].0 < |leaves| && leaves[found[i].0] == found[i].1
  }

  // Positions lie from lo to below hi, each above the one before.
  predicate Increasing(found: seq<(nat, bytes)>, lo: nat, hi: nat)
  {
    && (forall i :: 0 <= i < |found| ==> lo <= found[i].0 < hi)
    && (forall i, j :: 0 <= i < j < |found| ==> found[i].0 < found[j].0)
  }

  predicate AllLong(xs: seq<bytes>) { forall x :: x in xs ==> |x| == 32 }

  ghost predicate Long(hash: bytes -> bytes) { forall b {:trigger hash(b)} :: |hash(b)| == 32 }

  lemma {:induction false} NodesAreLong(t: Tree, h: nat, pos: nat)
    requires pos < Width(|t.leaves|, h) && AllLong(t.leaves) && Long(t.hash)
    ensures |Node(t, h, pos)| == 32
  {
    if h > 0 { NodeAbove(t, h, pos); }
  }

  // What a walk that ends with a hash is made of: a leaf or a pruned subtree, or the walks of the children.
  ghost predicate Stopped(m: Message, w: Walk, h: nat, pos: nat, used: nat)
  {
    && w.Walked? && used < |m.hashes| && w.used == used + 1 && w.hash == m.hashes[used] && w.hashed == {}
    && (w.found == [] || (h == 0 && w.found == [(pos, m.hashes[used])]))
  }

  lemma WalkCases(m: Message, hash: bytes -> bytes, walk: Walker, h: nat, pos: nat, bits: nat, used: nat)
    requires h <= 31 && 0 < m.n <= 0x4000_0000 && Walks(walk, m, hash) && walk(h, pos, bits, used).Walked?
    ensures var w, left := walk(h, pos, bits, used), if h > 0 then walk(h - 1, 2 * pos, bits + 1, used) else Threw;
      || Stopped(m, w, h, pos, used)
      || (h > 0 && left.Walked? && if 2 * pos + 1 >= Width(m.n, h - 1) then w == Combined(hash, left, left, [])
          else w == WithRight(hash, left, walk(h - 1, 2 * pos + 1, left.bits, left.used)))
  {
    assert walk(h, pos, bits, used) == Traverse(m, hash, h, pos, bits, used);
    if h > 0 && Bit(m.flags, bits) {
      assert walk(h - 1, 2 * pos, bits + 1, used) == Traverse(m, hash, h - 1, 2 * pos, bits + 1, used);
      BitIsInside(m.flags, bits);
      TraverseDescends(m, hash, walk, h, pos, bits, used);
    }
  }

  lemma BitIsInside(flags: seq<byte>, i: nat)
    requires Bit(flags, i)
    ensures i < |flags| * 8
  {
  }

  lemma EqualPairs(a: bytes, b: bytes, c: bytes, d: bytes)
    requires a + b == c + d && |a| == |c|
    ensures a == c && b == d
  {
    assert (a + b)[..|a|] == a && (c + d)[..|c|] == c;
    assert (a + b)[|a|..] == b && (c + d)[|c|..] == d;
  }

  // Positions strictly increase, and stay under the node the walk began at.
  ghost predicate IncreasesAt(n: nat, h: nat, pos: nat, w: Walk)
  {
    w.Walked? && Increasing(w.found, Start(n, h, pos), Start(n, h, pos + 1))
  }

  lemma {:induction false} FoundIncreases(m: Message, hash: bytes -> bytes, walk: Walker, h: nat, pos: nat, bits: nat, used: nat)
    requires h <= 31 && 0 < m.n <= 0x4000_0000 && Walks(walk, m, hash) && walk(h, pos, bits, used).Walked?
    requires pos < Width(m.n, h)
    ensures IncreasesAt(m.n, h, pos, walk(h, pos, bits, used))
  {
    WalkCases(m, hash, walk, h, pos, bits, used);
    if Stopped(m, walk(h, pos, bits, used), h, pos, used) {
      NodesHaveLeaves(m.n, h, pos);
    } else {
      HalfPosition(m.n, h, pos);
      var left := walk(h - 1, 2 * pos, bits + 1, used);
      FoundIncreases(m, hash, walk, h - 1, 2 * pos, bits + 1, used);
      if 2 * pos + 1 < Width(m.n, h - 1) {
        FoundIncreases(m, hash, walk, h - 1, 2 * pos + 1, left.bits, left.used);
        PairIncreases(m.n, h, pos, hash, left, Some(walk(h - 1, 2 * pos + 1, left.bits, left.used)));
      } else {
        PairIncreases(m.n, h, pos, hash, left, None);
      }
    }
  }

  lemma PairIncreases(n: nat, h: nat, pos: nat, hash: bytes -> bytes, left: Walk, right: Option<Walk>)
    requires n > 0 && h > 0 && IncreasesAt(n, h - 1, 2 * pos, left)
    requires right.Some? ==> IncreasesAt(n, h - 1, 2 * pos + 1, right.value)
    ensures IncreasesAt(n, h, pos, Descended(hash, left, right))
  {
    StartSplits(n, h, pos);
  }

  ghost predicate IsNode(t: Tree, x: bytes)
  {
    exists h: nat, pos: nat :: pos < Width(|t.leaves|, h) && Node(t, h, pos) == x
  }

  // The hashes a walk took from the message.
  ghost predicate TakesNodes(t: Tree, hashes: seq<bytes>, from: nat, to: nat)
  {
    from <= to <= |hashes| && forall i :: from <= i < to ==> IsNode(t, hashes[i])
  }

  // A walk that ends with the hash of the node found true leaves only and took hashes of nodes only, or hashed a string
  // that collides.
  ghost predicate SoundAt(t: Tree, hashes: seq<bytes>, h: nat, pos: nat, used: nat, w: Walk)
  {
    && w.Walked? && |w.hash| == 32 && pos < Width(|t.leaves|, h)
    && (w.hash == Node(t, h, pos) ==>
      || (TrueLeaves(t.leaves, w.found) && TakesNodes(t, hashes, used, w.used))
      || Collide(t.hash, HashedBelow(t, h, pos), w.hashed))
  }

  lemma {:induction false} TraverseSound(t: Tree, m: Message, walk: Walker, h: nat, pos: nat, bits: nat, used: nat)
    requires h <= 31 && 0 < m.n == |t.leaves| <= 0x4000_0000 && Walks(walk, m, t.hash)
    requires AllLong(t.leaves) && AllLong(m.hashes) && Long(t.hash) && pos < Width(m.n, h)
    requires walk(h, pos, bits, used).Walked?
    ensures SoundAt(t, m.hashes, h, pos, used, walk(h, pos, bits, used))
  {
    WalkCases(m, t.hash, walk, h, pos, bits, used);
    if Stopped(m, walk(h, pos, bits, used), h, pos, used) {
      StoppedIsSound(t, m, walk(h, pos, bits, used), h, pos, used);
    } else {
      HalfPosition(m.n, h, pos);
      var left := walk(h - 1, 2 * pos, bits + 1, used);
      TraverseSound(t, m, walk, h - 1, 2 * pos, bits + 1, used);
      if 2 * pos + 1 < Width(m.n, h - 1) {
        TraverseSound(t, m, walk, h - 1, 2 * pos + 1, left.bits, left.used);
        PairSound(t, m.hashes, h, pos, used, left, Some(walk(h - 1, 2 * pos + 1, left.bits, left.used)));
      } else {
        PairSound(t, m.hashes, h, pos, used, left, None);
      }
    }
  }

  lemma StoppedIsSound(t: Tree, m: Message, w: Walk, h: nat, pos: nat, used: nat)
    requires Stopped(m, w, h, pos, used) && AllLong(m.hashes) && pos < Width(|t.leaves|, h)
    ensures SoundAt(t, m.hashes, h, pos, used, w)
  {
  }

  lemma PairSound(t: Tree, hashes: seq<bytes>, h: nat, pos: nat, used: nat, left: Walk, right: Option<Walk>)
    requires h > 0 && pos < Width(|t.leaves|, h) && AllLong(t.leaves) && Long(t.hash)
    requires right.Some? == (2 * pos + 1 < Width(|t.leaves|, h - 1))
    requires SoundAt(t, hashes, h - 1, 2 * pos, used, left)
    requires right.Some? ==> SoundAt(t, hashes, h - 1, 2 * pos + 1, left.used, right.value)
    ensures SoundAt(t, hashes, h, pos, used, Descended(t.hash, left, right))
  {
    if PairOfNode(t, h, pos) == PairOfWalk(left, right) {
      NodesAreLong(t, h - 1, 2 * pos);
      EqualPairs(Node(t, h - 1, 2 * pos), SecondOfNode(t, h, pos), left.hash, SecondOfWalk(left, right));
      CollideMore(t, h, pos, left, right);
    } else {
      PairCollides(t, h, pos, left, right);
    }
  }

  // Different pairs are hashed: where the hashes agree, the pairs collide.
  lemma PairCollides(t: Tree, h: nat, pos: nat, left: Walk, right: Option<Walk>)
    requires h > 0 && pos < Width(|t.leaves|, h) && 2 * pos < Width(|t.leaves|, h - 1)
    requires left.Walked? && right.Some? == (2 * pos + 1 < Width(|t.leaves|, h - 1)) && (right.Some? ==> right.value.Walked?)
    requires PairOfNode(t, h, pos) != PairOfWalk(left, right)
    ensures var w := Descended(t.hash, left, right);
      w.hash == Node(t, h, pos) ==> Collide(t.hash, HashedBelow(t, h, pos), w.hashed)
  {
    NodeAbove(t, h, pos);
    assert PairOfNode(t, h, pos) in HashedBelow(t, h, pos);
  }

  function SecondOfNode(t: Tree, h: nat, pos: nat): bytes
    requires h > 0 && 2 * pos < Width(|t.leaves|, h - 1)
  {
    Node(t, h - 1, if 2 * pos + 1 < Width(|t.leaves|, h - 1) then 2 * pos + 1 else 2 * pos)
  }

  function PairOfNode(t: Tree, h: nat, pos: nat): bytes
    requires h > 0 && 2 * pos < Width(|t.leaves|, h - 1)
  {
    Node(t, h - 1, 2 * pos) + SecondOfNode(t, h, pos)
  }

  function SecondOfWalk(left: Walk, right: Option<Walk>): bytes
    requires left.Walked? && (right.Some? ==> right.value.Walked?)
  {
    if right.Some? then right.value.hash else left.hash
  }

  function PairOfWalk(left: Walk, right: Option<Walk>): bytes
    requires left.Walked? && (right.Some? ==> right.value.Walked?)
  {
    left.hash + SecondOfWalk(left, right)
  }

  // A collision below is a collision here.
  lemma CollideMore(t: Tree, h: nat, pos: nat, left: Walk, right: Option<Walk>)
    requires h > 0 && pos < Width(|t.leaves|, h) && left.Walked? && (right.Some? ==> right.value.Walked?)
    requires right.Some? == (2 * pos + 1 < Width(|t.leaves|, h - 1))
    ensures Collide(t.hash, HashedBelow(t, h - 1, 2 * pos), left.hashed)
      ==> Collide(t.hash, HashedBelow(t, h, pos), Descended(t.hash, left, right).hashed)
    ensures right.Some? && Collide(t.hash, HashedBelow(t, h - 1, 2 * pos + 1), right.value.hashed)
      ==> Collide(t.hash, HashedBelow(t, h, pos), Descended(t.hash, left, right).hashed)
  {
    var w := Descended(t.hash, left, right);
    assert HashedBelow(t, h - 1, 2 * pos) <= HashedBelow(t, h, pos) && left.hashed <= w.hashed;
    assert right.Some? ==> HashedBelow(t, h - 1, 2 * pos + 1) <= HashedBelow(t, h, pos) && right.value.hashed <= w.hashed;
  }

  // A message accepted against the root of a block, with its true number of transactions: everything the walk found is
  // the leaf of the block at its position, positions strictly increase, and every hash of the message is a node of the
  // block's tree, or two strings that were hashed collide.
  lemma PartialTreeSound(t: Tree, m: Message)
    requires 0 < m.n == |t.leaves| <= 0x4000_0000 && AllLong(t.leaves) && AllLong(m.hashes) && Long(t.hash)
    requires ValidMerkleTree(m, t.hash, Root(t)) == Accepts
    ensures var w := WalkOf(m, t.hash);
      && w.Walked? && Increasing(w.found, 0, m.n)
      && WidthAtTop(m.n)
      && ((TrueLeaves(t.leaves, w.found) && forall x :: x in m.hashes ==> IsNode(t, x))
        || Collide(t.hash, HashedBelow(t, Height(m.n), 0), w.hashed))
  {
    var walk := WalkerOf(m, t.hash);
    HeightIsExact(m.n);
    WidthAtHeight(m.n);
    NodesHaveLeaves(m.n, Height(m.n), 1);
    assert walk(Height(m.n), 0, 0, 0) == Traverse(m, t.hash, Height(m.n), 0, 0, 0);
    FoundIncreases(m, t.hash, walk, Height(m.n), 0, 0, 0);
    TraverseSound(t, m, walk, Height(m.n), 0, 0, 0);
  }

  // An accepted message uses each of its hashes: with one more it is rejected.
  lemma AppendedHashIsRejected(m: Message, x: bytes, hash: bytes -> bytes, root: bytes)
    requires ValidMerkleTree(m, hash, root) == Accepts
    ensures ValidMerkleTree(m.(hashes := m.hashes + [x]), hash, root) == Rejects
  {
    var more, h := m.(hashes := m.hashes + [x]), CalcTreeHeight(m.n, 0);
    var walk := WalkerOf(m, hash);
    var other := WalkerOf(more, hash);
    assert walk(h, 0, 0, 0) == Traverse(m, hash, h, 0, 0, 0);
    assert other(h, 0, 0, 0) == Traverse(more, hash, h, 0, 0, 0);
    MoreHashesSameWalk(m, more, hash, walk, other, h, 0, 0, 0);
  }

  lemma {:induction false} MoreHashesSameWalk(m: Message, more: Message, hash: bytes -> bytes, walk: Walker, other: Walker,
                                              h: nat, pos: nat, bits: nat, used: nat)
    requires h <= 31 && Walks(walk, m, hash) && Walks(other, more, hash)
    requires more == m.(hashes := more.hashes) && m.hashes <= more.hashes && walk(h, pos, bits, used).Walked?
    ensures other(h, pos, bits, used) == walk(h, pos, bits, used)
    decreases h
  {
    if bits <= |m.flags| * 8 && h > 0 && Bit(m.flags, bits) {
      WalkDescends(m, hash, walk, h, pos, bits, used);
      WalkDescends(more, hash, other, h, pos, bits, used);
      var left := walk(h - 1, 2 * pos, bits + 1, used);
      MoreHashesSameWalk(m, more, hash, walk, other, h - 1, 2 * pos, bits + 1, used);
      if 2 * pos + 1 < CalcTreeWidth(m.n, h - 1) {
        MoreHashesSameWalk(m, more, hash, walk, other, h - 1, 2 * pos + 1, left.bits, left.used);
      }
    } else {
      WalkStops(m, hash, walk, h, pos, bits, used);
      WalkStops(more, hash, other, h, pos, bits, used);
    }
  }

  predicate WidthAtTop(n: nat) { Width(n, Height(n)) == 1 }

  // A transaction the message is said to contain is in the block, or two strings that were hashed collide.
  lemma HasTransactionSound(t: Tree, m: Message, tx: bytes)
    requires 0 < m.n == |t.leaves| <= 0x4000_0000 && AllLong(t.leaves) && AllLong(m.hashes) && Long(t.hash)
    requires ValidMerkleTree(m, t.hash, Root(t)) == Accepts && HasTransaction(m, t.hash, tx) == Some(true)
    ensures WidthAtTop(m.n)
    ensures tx in t.leaves || Collide(t.hash, HashedBelow(t, Height(m.n), 0), WalkOf(m, t.hash).hashed)
  {
    PartialTreeSound(t, m);
    var found := WalkOf(m, t.hash).found;
    var i :| 0 <= i < |found| && Hashes(found)[i] == tx;
    if TrueLeaves(t.leaves, found) {
      assert t.leaves[found[i].0] == tx;
    }
  }

  // Why every hash has to be 32 bytes long: a byte moved from the first hash of a message to the second leaves their
  // concatenation, and so the root, as it was. The message is accepted, nothing collides, and the walk finds 31 bytes
  // that are no leaf.
  lemma ShortHashDeceives(t: Tree, m: Message, a: bytes, b: bytes)
    requires |a| == |b| == 32 && t.leaves == [a, b]
    requires m.n == |t.leaves| && m.hashes == [a[..31], a[31..] + b] && m.flags == [3]
    ensures var w := WalkOf(m, t.hash);
      && ValidMerkleTree(m, t.hash, Root(t)) == Accepts && w.Walked? && w.found == [(0, a[..31])] && WidthAtTop(m.n)
      && !TrueLeaves(t.leaves, w.found) && !Collide(t.hash, HashedBelow(t, Height(m.n), 0), w.hashed)
  {
    TwoLeaves(t, a, b);
    TwoLeafWalk(m, t.hash);
    assert a[..31] + (a[31..] + b) == a + b;
    AcceptsWalk(m, t.hash, Root(t));
    WalkIsFalse(a, b, WalkOf(m, t.hash).found);
    NoCollision(t.hash, a + b);
  }

  lemma AcceptsWalk(m: Message, hash: bytes -> bytes, root: bytes)
    requires |m.hashes| <= m.n && |m.hashes| <= |m.flags| * 8
    requires var w := WalkOf(m, hash); w.Walked? && w.used == |m.hashes| && w.hash == root
    ensures ValidMerkleTree(m, hash, root) == Accepts
  {
  }

  lemma WalkIsFalse(a: bytes, b: bytes, found: seq<(nat, bytes)>)
    requires |a| == |b| == 32 && found == [(0, a[..31])]
    ensures !TrueLeaves([a, b], found)
  {
    assert |found[0].1| == 31;
  }

  lemma NoCollision(hash: bytes -> bytes, b: bytes)
    ensures !Collide(hash, {b}, {b})
  {
  }

  // The walk over two leaves, of which the first is matched.
  lemma TwoLeafWalk(m: Message, hash: bytes -> bytes)
    requires m.n == |m.hashes| == 2 && m.flags == [3]
    ensures WalkOf(m, hash)
      == Walked(hash(m.hashes[0] + m.hashes[1]), 3, 2, [(0, m.hashes[0])], {m.hashes[0] + m.hashes[1]})
  {
    WidthIsExact(2, 0);
    BitsOfThree();
    var left := LeafWalk(m, hash, 0, 1, 0);
    var right := LeafWalk(m, hash, 1, 2, 1);
    assert Traverse(m, hash, 1, 0, 0, 0) == Combined(hash, left, right, right.found);
    HeightIsExact(2);
    WalkAtHeight(m, hash, 1);
  }

  lemma WalkAtHeight(m: Message, hash: bytes -> bytes, h: nat)
    requires CalcTreeHeight(m.n, 0) == h
    ensures WalkOf(m, hash) == Traverse(m, hash, h, 0, 0, 0)
  {
  }

  lemma BitsOfThree()
    ensures Bit([3], 0) && Bit([3], 1) && !Bit([3], 2)
  {
    assert Shr(3, 0) == 3;
    assert Shr(3, 1) == Shr(1, 0) == 1;
    assert Shr(3, 2) == Shr(1, 1) == Shr(0, 0) == 0;
  }

  lemma TwoLeaves(t: Tree, a: bytes, b: bytes)
    requires t.leaves == [a, b]
    ensures Height(2) == 1 && Width(2, 1) == 1 && Width(2, 0) == 2
    ensures Root(t) == t.hash(a + b) && HashedBelow(t, 1, 0) == {a + b}
  {
    assert Width(2, 1) == (Width(2, 0) + 1) / 2;
    assert Node(t, 0, 0) == a && Node(t, 0, 1) == b;
    assert HashedBelow(t, 0, 0) == {} && HashedBelow(t, 0, 1) == {};
  }

  // The walk of a single leaf.
  lemma LeafWalk(m: Message, hash: bytes -> bytes, pos: nat, bits: nat, used: nat) returns (w: Walk)
    requires bits <= |m.flags| * 8 && used < |m.hashes|
    ensures w == Traverse(m, hash, 0, pos, bits, used)
    ensures w == Walked(m.hashes[used], bits + 1, used + 1, if Bit(m.flags, bits) then [(pos, m.hashes[used])] else [], {})
  {
    w := Traverse(m, hash, 0, pos, bits, used);
  }

  // ----- the code -----

  function Hashes(found: seq<(nat, bytes)>): (r: seq<bytes>)
    ensures |r| == |found|
  {
    seq(|found|, i requires 0 <= i < |found| => found[i].1)
  }

  // Whether the walk collects the transaction; nothing where it throws. A walk without a hash has collected nothing.
  function HasTransaction(m: Message, hash: bytes -> bytes, tx: bytes): Option<bool>
  {
    match WalkOf(m, hash)
    case Threw => None
    case Null(_) => Some(false)
    case Walked(_, _, _, found, _) => Some(tx in Hashes(found))
  }

  // A built message is said to contain exactly the transactions it was built for.
  lemma HasTransactionComplete(q: Query, tx: bytes)
    requires q.Valid()
    ensures HasTransaction(Built(q), q.t.hash, tx) == Some(exists i :: 0 <= i < q.N() && q.marks[i] && q.t.leaves[i] == tx)
  {
    PartialTreeComplete(q);
    MatchedHashes(q, q.N(), tx);
  }

  lemma {:induction false} MatchedHashes(q: Query, hi: nat, tx: bytes)
    requires q.Valid() && hi <= q.N()
    ensures tx in Hashes(Matches(q, 0, hi)) <==> exists i :: 0 <= i < hi && q.marks[i] && q.t.leaves[i] == tx
  {
    if hi > 0 {
      MatchedHashes(q, hi - 1, tx);
      var before := Matches(q, 0, hi - 1);
      if q.marks[hi - 1] {
        assert Hashes(before + [(hi - 1, q.t.leaves[hi - 1])]) == Hashes(before) + [q.t.leaves[hi - 1]];
      } else {
        assert before + [] == before;
      }
    }
  }

  // More hashes than transactions, or than bits, are refused before anything is read.
  lemma TooManyHashesAreRejected(m: Message, hash: bytes -> bytes, root: bytes)
    requires |m.hashes| > m.n || |m.hashes| > 8 * |m.flags|
    ensures ValidMerkleTree(m, hash, root) == Rejects
  {
  }

  datatype Visit = Hash(hash: bytes) | NullHash | Exception

  // The cursors and the collected hashes one traversal hands down and changes.
  class Opts {
    var hashesUsed: nat
    var flagBitsUsed: nat
    var txs: seq<bytes>

    constructor ()
      ensures hashesUsed == 0 && flagBitsUsed == 0 && txs == []
    {
      hashesUsed, flagBitsUsed, txs := 0, 0, [];
    }

    // Where a walk has left them, and what it returned.
    ghost predicate Follows(w: Walk, before: seq<bytes>, r: Visit) reads this
    {
      match w
      case Walked(h, bits, used, found, _) =>
        r == Hash(h) && flagBitsUsed == bits && hashesUsed == used && txs == before + Hashes(found)
      case Null(used) => r == NullHash && hashesUsed == used && txs == before
      case Threw => r == Exception
    }
  }

  // A walk that does not descend.
  lemma WalkStops(m: Message, hash: bytes -> bytes, walk: Walker, depth: nat, pos: nat, bits: nat, used: nat)
    requires depth <= 31 && Walks(walk, m, hash) && (bits > |m.flags| * 8 || depth == 0 || !Bit(m.flags, bits))
    ensures walk(depth, pos, bits, used) ==
      if bits > |m.flags| * 8 || used >= |m.hashes| then Null(used)
      else Walked(m.hashes[used], bits + 1, used + 1, if depth == 0 && Bit(m.flags, bits) then [(pos, m.hashes[used])] else [], {})
  {
    assert walk(depth, pos, bits, used) == Traverse(m, hash, depth, pos, bits, used);
  }

  // One that does, in terms of the walks below it.
  lemma WalkDescends(m: Message, hash: bytes -> bytes, walk: Walker, depth: nat, pos: nat, bits: nat, used: nat)
    requires 0 < depth <= 31 && Walks(walk, m, hash) && bits <= |m.flags| * 8 && Bit(m.flags, bits)
    ensures var w, left := walk(depth, pos, bits, used), walk(depth - 1, 2 * pos, bits + 1, used);
      if left.Threw? then w == Threw
      else if 2 * pos + 1 >= CalcTreeWidth(m.n, depth - 1) then w == Combined(hash, left, left, [])
      else if left.Null? then w == Threw
      else w == WithRight(hash, left, walk(depth - 1, 2 * pos + 1, left.bits, left.used))
  {
    assert walk(depth, pos, bits, used) == Traverse(m, hash, depth, pos, bits, used);
    var left := Traverse(m, hash, depth - 1, 2 * pos, bits + 1, used);
    assert left == walk(depth - 1, 2 * pos, bits + 1, used);
    if left.Walked? {
      assert Traverse(m, hash, depth - 1, 2 * pos + 1, left.bits, left.used) == walk(depth - 1, 2 * pos + 1, left.bits, left.used);
    }
  }

  class MerkleBlock {
    const merkleRoot: bytes
    const numTransactions: nat
    const hashes: seq<bytes>
    const flags: seq<byte>
    const hash: bytes -> bytes

    constructor (m: Message, merkleRoot: bytes, hash: bytes -> bytes)
      ensures Sent() == m && this.merkleRoot == merkleRoot && this.hash == hash
    {
      numTransactions, hashes, flags := m.n, m.hashes, m.flags;
      this.merkleRoot, this.hash := merkleRoot, hash;
    }

    ghost function Sent(): Message { Message(numTransactions, hashes, flags) }

    method TreeHeight() returns (height: nat)
      ensures height == CalcTreeHeight(numTransactions, 0) <= 31
    {
      height := 0;
      while CalcTreeWidth(numTransactions, height) > 1
        invariant height <= 31 && CalcTreeHeight(numTransactions, 0) == CalcTreeHeight(numTransactions, height)
        decreases 31 - height
      {
        WidthAtMost31(numTransactions);
        height := height + 1;
      }
    }

    method TraverseMerkleTree(depth: nat, pos: nat, opts: Opts, ghost walk: Walker) returns (r: Visit)
      requires depth <= 31 && Walks(walk, Sent(), hash)
      modifies opts
      ensures opts.Follows(walk(depth, pos, old(opts.flagBitsUsed), old(opts.hashesUsed)), old(opts.txs), r)
      decreases depth, 1
    {
      ghost var bits, used := opts.flagBitsUsed, opts.hashesUsed;
      if opts.flagBitsUsed > |flags| * 8 {
        WalkStops(Sent(), hash, walk, depth, pos, bits, used);
        return NullHash;
      }
      var isParentOfMatch := Bit(flags, opts.flagBitsUsed);
      opts.flagBitsUsed := opts.flagBitsUsed + 1;
      if depth == 0 || !isParentOfMatch {
        WalkStops(Sent(), hash, walk, depth, pos, bits, used);
        r := TakeHash(depth == 0 && isParentOfMatch, opts);
      } else {
        WalkDescends(Sent(), hash, walk, depth, pos, bits, used);
        r := Descend(depth, pos, opts, walk);
      }
    }

    // Both children, the second only where there is one; a child without a hash makes the parent throw.
    method Descend(depth: nat, pos: nat, opts: Opts, ghost walk: Walker) returns (r: Visit)
      requires 0 < depth <= 31 && Walks(walk, Sent(), hash)
      modifies opts
      ensures var left := walk(depth - 1, 2 * pos, old(opts.flagBitsUsed), old(opts.hashesUsed));
        opts.Follows(
          if left.Threw? then Threw
          else if 2 * pos + 1 >= CalcTreeWidth(numTransactions, depth - 1) then Combined(hash, left, left, [])
          else if left.Null? then Threw
          else WithRight(hash, left, walk(depth - 1, 2 * pos + 1, left.bits, left.used)), old(opts.txs), r)
      decreases depth, 0
    {
      var left := TraverseMerkleTree(depth - 1, pos * 2, opts, walk);
      if left.Exception? { return Exception; }
      var right := left;
      if pos * 2 + 1 < CalcTreeWidth(numTransactions, depth - 1) {
        right := TraverseMerkleTree(depth - 1, pos * 2 + 1, opts, walk);
      }
      if !left.Hash? || !right.Hash? { return Exception; }
      return Hash(hash(left.hash + right.hash));
    }

    method TakeHash(matched: bool, opts: Opts) returns (r: Visit)
      modifies opts
      ensures opts.flagBitsUsed == old(opts.flagBitsUsed)
      ensures if old(opts.hashesUsed) >= |hashes| then r == NullHash && opts.hashesUsed == old(opts.hashesUsed) && opts.txs == old(opts.txs)
        else
          && r == Hash(hashes[old(opts.hashesUsed)]) && opts.hashesUsed == old(opts.hashesUsed) + 1
          && opts.txs == old(opts.txs) + if matched then [hashes[old(opts.hashesUsed)]] else []
    {
      if opts.hashesUsed >= |hashes| { return NullHash; }
      var h := hashes[opts.hashesUsed];
      opts.hashesUsed := opts.hashesUsed + 1;
      if matched { opts.txs := opts.txs + [h]; }
      return Hash(h);
    }

    method Valid() returns (r: Answer)
      ensures r == ValidMerkleTree(Sent(), hash, merkleRoot)
    {
      if |hashes| > numTransactions { return Rejects; }
      if |flags| * 8 < |hashes| { return Rejects; }
      var height := TreeHeight();
      var opts := new Opts();
      ghost var walk := WalkerOf(Sent(), hash);
      assert walk(height, 0, 0, 0) == Traverse(Sent(), hash, height, 0, 0, 0);
      var root := TraverseMerkleTree(height, 0, opts, walk);
      if root.Exception? { return Throws; }
      if opts.hashesUsed != |hashes| { return Rejects; }
      if root.NullHash? { return Throws; }
      return if root.hash == merkleRoot then Accepts else Rejects;
    }

    method Contains(tx: bytes) returns (r: Option<bool>)
      ensures r == HasTransaction(Sent(), hash, tx)
    {
      var height := TreeHeight();
      var opts := new Opts();
      ghost var walk := WalkerOf(Sent(), hash);
      assert walk(height, 0, 0, 0) == Traverse(Sent(), hash, height, 0, 0, 0);
      var root := TraverseMerkleTree(height, 0, opts, walk);
      if root.Exception? { return None; }
      return Some(tx in opts.txs);
    }
  }
}
