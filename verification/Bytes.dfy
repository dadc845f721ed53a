// Bytes, natural numbers as byte strings, and the option type shared by every module.

module Bytes {
  type byte = b: int | 0 <= b < 256
  type bytes = seq<byte>

  datatype Option<+T> = None | Some(value: T)
  {
    predicate IsFailure() { None? }

    function PropagateFailure<U>(): Option<U>
      requires None?
    {
      None
    }

    function Extract(): T
      requires Some?
    {
      value
    }
  }

  function Reverse<T>(s: seq<T>): (r: seq<T>)
    ensures |r| == |s|
  {
    if s == [] then [] else Reverse(s[1..]) + [s[0]]
  }

  lemma {:induction false} ReverseAt<T>(s: seq<T>, i: nat)
    requires i < |s|
    ensures Reverse(s)[i] == s[|s| - 1 - i]
  {
    if i < |s| - 1 {
      ReverseAt(s[1..], i);
    }
  }

  lemma ReverseElements<T>(s: seq<T>)
    ensures forall i: nat :: i < |s| ==> Reverse(s)[i] == s[|s| - 1 - i]
  {
    forall i: nat | i < |s| ensures Reverse(s)[i] == s[|s| - 1 - i] {
      ReverseAt(s, i);
    }
  }

  lemma ReverseTwice<T>(s: seq<T>)
    ensures Reverse(Reverse(s)) == s
  {
    forall i: nat | i < |s| ensures Reverse(Reverse(s))[i] == s[i] {
      ReverseAt(Reverse(s), i);
      ReverseAt(s, |s| - 1 - i);
    }
  }

  lemma ReverseAppend<T>(s: seq<T>, t: seq<T>)
    ensures Reverse(s + t) == Reverse(t) + Reverse(s)
  {
    forall i: nat | i < |s + t| ensures Reverse(s + t)[i] == (Reverse(t) + Reverse(s))[i] {
      ReverseAt(s + t, i);
      if i < |t| { ReverseAt(t, i); } else { ReverseAt(s, i - |t|); }
    }
  }

  // The slice [from, to) of a buffer, clamped to its end: reading past the end gives fewer bytes.
  function Slice(b: bytes, from: nat, to: nat): (r: bytes)
    ensures from <= to <= |b| ==> r == b[from..to]
    ensures from > |b| ==> r == []
    ensures |r| <= to - from || r == []
  {
    var hi := if to < |b| then to else |b|;
    if from <= hi then b[from..hi] else []
  }

  // Value of a buffer read least significant byte first.
  function LittleEndian(b: bytes): nat
  {
    if b == [] then 0 else b[0] + 256 * LittleEndian(b[1..])
  }

  // Value of a buffer read most significant byte first.
  function BigEndian(b: bytes): nat
  {
    if b == [] then 0 else 256 * BigEndian(b[..|b| - 1]) + b[|b| - 1]
  }

  function Pow256(n: nat): (p: nat)
    ensures p > 0
  {
    if n == 0 then 1 else 256 * Pow256(n - 1)
  }

  // The `size` least significant bytes of n, least significant first.
  function FixedLE(n: nat, size: nat): (b: bytes)
    ensures |b| == size
  {
    if size == 0 then [] else [n % 256] + FixedLE(n / 256, size - 1)
  }

  lemma {:induction false} FixedLEValue(n: nat, size: nat)
    requires n < Pow256(size)
    ensures LittleEndian(FixedLE(n, size)) == n
  {
    if size > 0 {
      FixedLEValue(n / 256, size - 1);
      assert FixedLE(n, size)[1..] == FixedLE(n / 256, size - 1);
    }
  }

  lemma {:induction false} LittleEndianBound(b: bytes)
    ensures LittleEndian(b) < Pow256(|b|)
  {
    if b != [] {
      LittleEndianBound(b[1..]);
    }
  }

  lemma {:induction false} FixedLEOfValue(b: bytes)
    ensures FixedLE(LittleEndian(b), |b|) == b
  {
    if b != [] {
      FixedLEOfValue(b[1..]);
      FixedLEOf(b[0], LittleEndian(b[1..]), |b| - 1);
      assert [b[0]] + b[1..] == b;
    }
  }

  lemma FixedLEOf(low: byte, high: nat, size: nat)
    ensures FixedLE(low + 256 * high, size + 1) == [low] + FixedLE(high, size)
  {
    assert (low + 256 * high) % 256 == low && (low + 256 * high) / 256 == high;
  }

  lemma MulAssoc(x: int, y: int, z: int)
    ensures x * (y * z) == (x * y) * z
  {
  }

  lemma {:induction false} LittleEndianAppend(a: bytes, b: bytes)
    ensures LittleEndian(a + b) == LittleEndian(a) + Pow256(|a|) * LittleEndian(b)
  {
    if a == [] {
      assert a + b == b;
    } else {
      LittleEndianAppend(a[1..], b);
      assert (a + b)[1..] == a[1..] + b && (a + b)[0] == a[0];
      MulAssoc(256, Pow256(|a| - 1), LittleEndian(b));
    }
  }

  lemma LittleEndianSnoc(init: bytes, top: byte)
    ensures LittleEndian(init + [top]) == LittleEndian(init) + Pow256(|init|) * top
  {
    LittleEndianAppend(init, [top]);
    assert LittleEndian([top]) == top by { assert [top][1..] == []; }
  }

  lemma MulMonotone(p: nat, x: int, y: int)
    requires x <= y
    ensures p * x <= p * y
  {
  }

  lemma ScaledBelow(p: nat, v: nat, x: int, limit: int)
    requires v < p && x < limit
    ensures v + p * x < p * limit
  {
    MulMonotone(p, x + 1, limit);
    assert p * (x + 1) == p * x + p;
  }

  // A number of |init| + 1 bytes, bounded through its top byte.
  lemma TopByteBelow(init: bytes, top: byte, limit: nat)
    requires top < limit
    ensures LittleEndian(init + [top]) < Pow256(|init|) * limit
  {
    LittleEndianSnoc(init, top);
    LittleEndianBound(init);
    ScaledBelow(Pow256(|init|), LittleEndian(init), top, limit);
  }

  lemma TopByteAbove(init: bytes, top: byte, limit: nat)
    requires top >= limit
    ensures LittleEndian(init + [top]) >= Pow256(|init|) * limit
  {
    LittleEndianSnoc(init, top);
    MulMonotone(Pow256(|init|), limit, top);
  }

  lemma {:induction false} BigEndianIsReversed(b: bytes)
    ensures BigEndian(b) == LittleEndian(Reverse(b))
  {
    if b != [] {
      var init, last := b[..|b| - 1], b[|b| - 1];
      BigEndianIsReversed(init);
      assert b == init + [last];
      ReverseAppend(init, [last]);
      assert Reverse([last]) == [last];
      assert Reverse(b)[1..] == Reverse(init);
    }
  }

  // The shortest big-endian buffer of n; zero takes one byte.
  function NatToBE(n: nat): (b: bytes)
    ensures |b| >= 1
    ensures n > 0 ==> b[0] != 0
  {
    if n < 256 then [n] else NatToBE(n / 256) + [n % 256]
  }

  lemma {:induction false} NatToBEValue(n: nat)
    ensures BigEndian(NatToBE(n)) == n
  {
    if n >= 256 {
      NatToBEValue(n / 256);
      assert NatToBE(n)[..|NatToBE(n)| - 1] == NatToBE(n / 256);
    }
  }

  lemma {:induction false} NatToBELength(n: nat, k: nat)
    requires n < Pow256(k) && k >= 1
    ensures |NatToBE(n)| <= k
  {
    if n >= 256 {
      assert Pow256(1) == 256;
      NatToBELength(n / 256, k - 1);
    }
  }

  // The first byte counts most.
  lemma BigEndianFirst(b: bytes)
    requires b != []
    ensures BigEndian(b) == Pow256(|b| - 1) * b[0] + BigEndian(b[1..]) && BigEndian(b[1..]) < Pow256(|b| - 1)
  {
    BigEndianIsReversed(b);
    BigEndianIsReversed(b[1..]);
    assert b == [b[0]] + b[1..];
    ReverseAppend([b[0]], b[1..]);
    assert Reverse([b[0]]) == [b[0]];
    LittleEndianSnoc(Reverse(b[1..]), b[0]);
    LittleEndianBound(Reverse(b[1..]));
  }

  lemma {:induction false} BEToNatToBE(b: bytes)
    requires |b| >= 1 && (b[0] != 0 || |b| == 1)
    ensures NatToBE(BigEndian(b)) == b
  {
    if |b| > 1 {
      var init := b[..|b| - 1];
      BEToNatToBE(init);
      assert BigEndian(init) > 0 by {
        if BigEndian(init) == 0 {
          assert false;
        }
      }
      assert b == init + [b[|b| - 1]];
    } else {
      assert b[..0] == [];
    }
  }
}
