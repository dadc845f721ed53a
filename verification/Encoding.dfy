// Cursor reads and buffered writes (encoding/bufferreader.js, encoding/bufferwriter.js).
// A read is specified as a function of the buffer and the position; the reader class moves its cursor
// the same way. A read that throws is a failure.

module Encoding {
  import opened Bytes

  datatype Read<+T> = Got(value: T, pos: nat) | Threw
  {
    predicate IsFailure() { Threw? }

    function PropagateFailure<U>(): Read<U>
      requires Threw?
    {
      Threw
    }

    function Extract(): (T, nat)
      requires Got?
    {
      (value, pos)
    }
  }

  const MAX_INEXACT: nat := 0x20_0000_0000_0000  // 2^53

  // The bytes s stand in buf at pos.
  ghost predicate Stands(buf: bytes, pos: nat, s: bytes)
  {
    pos + |s| <= |buf| && buf[pos..pos + |s|] == s
  }

  lemma StandsAppend(buf: bytes, pos: nat, s: bytes, t: bytes)
    ensures Stands(buf, pos, s + t) <==> Stands(buf, pos, s) && Stands(buf, pos + |s|, t)
  {
    if Stands(buf, pos, s) && Stands(buf, pos + |s|, t) {
      assert buf[pos..pos + |s + t|] == buf[pos..pos + |s|] + buf[pos + |s|..pos + |s| + |t|];
    }
    if Stands(buf, pos, s + t) {
      var both := buf[pos..pos + |s + t|];
      assert both[..|s|] == s && both[|s|..] == t;
      assert buf[pos..pos + |s|] == both[..|s|];
      assert buf[pos + |s|..pos + |s| + |t|] == both[|s|..];
    }
  }

  lemma StandsAppend4(buf: bytes, pos: nat, a: bytes, b: bytes, c: bytes, d: bytes, p1: nat, p2: nat, p3: nat)
    requires Stands(buf, pos, a + (b + (c + d)))
    requires p1 == pos + |a| && p2 == p1 + |b| && p3 == p2 + |c|
    ensures Stands(buf, pos, a) && Stands(buf, p1, b) && Stands(buf, p2, c) && Stands(buf, p3, d)
    ensures pos + |a + (b + (c + d))| == p3 + |d|
  {
    StandsAppend(buf, pos, a, b + (c + d));
    StandsAppend(buf, p1, b, c + d);
    StandsAppend(buf, p2, c, d);
  }

  lemma StandsAppend3(buf: bytes, pos: nat, a: bytes, b: bytes, c: bytes, p1: nat, p2: nat)
    requires Stands(buf, pos, a + (b + c))
    requires p1 == pos + |a| && p2 == p1 + |b|
    ensures Stands(buf, pos, a) && Stands(buf, p1, b) && Stands(buf, p2, c)
    ensures pos + |a + (b + c)| == p2 + |c|
  {
    StandsAppend(buf, pos, a, b + c);
    StandsAppend(buf, p1, b, c);
  }

  // ----- reads -----

  // Raw bytes never fail: past the end they are fewer, and the cursor still moves by the full length.
  function ReadBytes(buf: bytes, pos: nat, len: nat): Read<bytes>
  {
    Got(Slice(buf, pos, pos + len), pos + len)
  }

  function ReadUInt(buf: bytes, pos: nat, size: nat): Read<nat>
  {
    if pos + size <= |buf| then Got(LittleEndian(buf[pos..pos + size]), pos + size) else Threw
  }

  function ReadInt32(buf: bytes, pos: nat): Read<int>
  {
    var (n, p) :- ReadUInt(buf, pos, 4);
    Got(if n < 0x8000_0000 then n else n - 0x1_0000_0000, p)
  }

  // The nine-byte form goes through a double: 2^53 + 1 comes out as 2^53, anything larger is refused.
  function ReadVarint(buf: bytes, pos: nat): Read<nat>
  {
    var (first, p) :- ReadUInt(buf, pos, 1);
    if first == 0xFD then ReadUInt(buf, p, 2)
    else if first == 0xFE then ReadUInt(buf, p, 4)
    else if first == 0xFF then
      var (n, q) :- ReadUInt(buf, p, 8);
      if n <= MAX_INEXACT then Got(n, q)
      else if n == MAX_INEXACT + 1 then Got(MAX_INEXACT, q)
      else Threw
    else Got(first, p)
  }

  function ReadVarLength(buf: bytes, pos: nat): Read<bytes>
  {
    var (len, p) :- ReadVarint(buf, pos);
    var (b, q) :- ReadBytes(buf, p, len);
    if |b| == len then Got(b, q) else Threw
  }

  // `count` items, one after the other.
  function ReadList<T>(item: (bytes, nat) -> Read<T>, buf: bytes, pos: nat, count: nat): (r: Read<seq<T>>)
    ensures r.Got? ==> |r.value| == count
    decreases count
  {
    if count == 0 then Got([], pos)
    else
      var (x, p) :- item(buf, pos);
      var (rest, q) :- ReadList(item, buf, p, count - 1);
      Got([x] + rest, q)
  }

  // Reading one more item after `count` of them.
  lemma {:induction false} ReadListSnoc<T>(item: (bytes, nat) -> Read<T>, buf: bytes, pos: nat, count: nat)
    ensures ReadList(item, buf, pos, count + 1) ==
      match ReadList(item, buf, pos, count)
      case Threw => Threw
      case Got(xs, p) => match item(buf, p) case Threw => Threw case Got(x, q) => Got(xs + [x], q)
    decreases count
  {
    if count == 0 {
      match item(buf, pos)
      case Threw =>
      case Got(x, q) => assert [x] + [] == [] + [x];
    } else {
      match item(buf, pos)
      case Threw =>
      case Got(x, p) =>
        ReadListSnoc(item, buf, p, count - 1);
        match ReadList(item, buf, p, count - 1)
        case Threw =>
        case Got(xs, q) =>
          match item(buf, q)
          case Threw =>
          case Got(y, _) => assert [x] + (xs + [y]) == ([x] + xs) + [y];
    }
  }

  // Once an item throws, so does the list.
  lemma {:induction false} ReadListThrows<T>(item: (bytes, nat) -> Read<T>, buf: bytes, pos: nat, done: nat, count: nat)
    requires done <= count && ReadList(item, buf, pos, done).Threw?
    ensures ReadList(item, buf, pos, count).Threw?
    decreases count
  {
    if done < count {
      ReadListThrows(item, buf, pos, done, count - 1);
      ReadListSnoc(item, buf, pos, count - 1);
    }
  }

  // ----- writes -----

  function Int32Bytes(v: int): bytes
  {
    FixedLE(v % 0x1_0000_0000, 4)
  }

  function VarintBytes(n: nat): bytes
  {
    if n < 253 then [n]
    else if n < 0x10000 then [253] + FixedLE(n, 2)
    else if n < 0x1_0000_0000 then [254] + FixedLE(n, 4)
    else [255] + FixedLE(n, 8)
  }

  // Eight bytes, unless the number needs more: then it is written in full, not cut.
  function UInt64Bytes(n: nat): bytes
  {
    if |NatToBE(n)| <= 8 then FixedLE(n, 8) else Reverse(NatToBE(n))
  }

  function VarLengthBytes(b: bytes): bytes
  {
    VarintBytes(|b|) + b
  }

  function ConcatMap<T>(put: T -> bytes, xs: seq<T>): bytes
  {
    if xs == [] then [] else put(xs[0]) + ConcatMap(put, xs[1..])
  }

  lemma {:induction false} ConcatMapSnoc<T>(put: T -> bytes, xs: seq<T>, x: T)
    ensures ConcatMap(put, xs + [x]) == ConcatMap(put, xs) + put(x)
  {
    if xs == [] {
      assert (xs + [x])[1..] == [];
    } else {
      ConcatMapSnoc(put, xs[1..], x);
      assert (xs + [x])[1..] == xs[1..] + [x];
    }
  }

  // One more item, written after whatever is there.
  lemma ConcatMapStep<T>(put: T -> bytes, xs: seq<T>, k: nat, head: bytes)
    requires k < |xs|
    ensures head + ConcatMap(put, xs[..k + 1]) == head + ConcatMap(put, xs[..k]) + put(xs[k])
  {
    assert xs[..k + 1] == xs[..k] + [xs[k]];
    ConcatMapSnoc(put, xs[..k], xs[k]);
    Concat3(head, ConcatMap(put, xs[..k]), put(xs[k]));
  }

  lemma Concat3(a: bytes, b: bytes, c: bytes)
    ensures a + b + c == a + (b + c)
  {
  }

  // ----- what is written is read back -----

  lemma UIntRoundTrip(buf: bytes, pos: nat, n: nat, size: nat)
    requires n < Pow256(size) && Stands(buf, pos, FixedLE(n, size))
    ensures ReadUInt(buf, pos, size) == Got(n, pos + size)
  {
    FixedLEValue(n, size);
  }

  lemma Powers()
    ensures Pow256(1) == 0x100 && Pow256(2) == 0x10000 && Pow256(4) == 0x1_0000_0000
    ensures Pow256(8) == 0x1_0000_0000_0000_0000
  {
    assert Pow256(3) == 256 * Pow256(2);
    assert Pow256(5) == 256 * Pow256(4);
    assert Pow256(6) == 256 * Pow256(5);
    assert Pow256(7) == 256 * Pow256(6);
  }

  lemma Int32RoundTrip(buf: bytes, pos: nat, v: int)
    requires -0x8000_0000 <= v < 0x8000_0000 && Stands(buf, pos, Int32Bytes(v))
    ensures ReadInt32(buf, pos) == Got(v, pos + 4)
  {
    Powers();
    UIntRoundTrip(buf, pos, v % 0x1_0000_0000, 4);
  }

  // A wide number is written as two halves.
  lemma TwoHalves(n: nat)
    requires n < Pow256(8)
    ensures FixedLE(n % 0x1_0000_0000, 4) + FixedLE(n / 0x1_0000_0000, 4) == FixedLE(n, 8)
  {
    Powers();
    var lo, hi := n % 0x1_0000_0000, n / 0x1_0000_0000;
    FixedLEValue(lo, 4);
    FixedLEValue(hi, 4);
    ValueOfHalves(FixedLE(lo, 4), FixedLE(hi, 4), n);
  }

  lemma ValueOfHalves(a: bytes, b: bytes, n: nat)
    requires |a| == |b| == 4 && n == LittleEndian(a) + 0x1_0000_0000 * LittleEndian(b)
    ensures a + b == FixedLE(n, 8)
  {
    Powers();
    LittleEndianAppend(a, b);
    FixedLEOfValue(a + b);
  }

  // Variable-length numbers up to 2^53 are read back, whatever follows them.
  lemma VarintRoundTrip(buf: bytes, pos: nat, n: nat)
    requires n <= MAX_INEXACT && Stands(buf, pos, VarintBytes(n))
    ensures ReadVarint(buf, pos) == Got(n, pos + |VarintBytes(n)|)
  {
    Powers();
    var tag: byte := if n < 253 then n else if n < 0x10000 then 253 else if n < 0x1_0000_0000 then 254 else 255;
    var size := if n < 253 then 0 else if n < 0x10000 then 2 else if n < 0x1_0000_0000 then 4 else 8;
    assert VarintBytes(n) == [tag] + (if size == 0 then [] else FixedLE(n, size));
    StandsAppend(buf, pos, [tag], if size == 0 then [] else FixedLE(n, size));
    assert LittleEndian([tag]) == tag by { assert [tag][1..] == []; }
    if size > 0 {
      UIntRoundTrip(buf, pos + 1, n, size);
    }
  }

  // Among all that a reader takes for a number, the printed form is the shortest, and the only one of its length. (2^53 is
  // read from two forms, so it stays out.)
  lemma VarintIsShortest(b: bytes, n: nat)
    requires ReadVarint(b, 0) == Got(n, |b|) && n < MAX_INEXACT
    ensures |VarintBytes(n)| <= |b|
    ensures |VarintBytes(n)| == |b| <==> b == VarintBytes(n)
  {
    Powers();
    FirstByteReads(b);
    if b[0] < 0xFD {
      assert b == [b[0]];
    } else {
      var size := if b[0] == 0xFD then 2 else if b[0] == 0xFE then 4 else 8;
      assert b[1..1 + size] == b[1..] && n == LittleEndian(b[1..]);
      LittleEndianBound(b[1..]);
      FixedLEOfValue(b[1..]);
      assert b == [b[0]] + FixedLE(n, size);
    }
  }

  lemma FirstByteReads(b: bytes)
    requires ReadUInt(b, 0, 1).Got?
    ensures b != [] && ReadUInt(b, 0, 1) == Got(b[0], 1)
  {
    assert b[0..1] == [b[0]] && [b[0]][1..] == [];
    assert LittleEndian([b[0]]) == b[0];
  }

  // The nine-byte form, from 2^53 on.
  lemma WideVarints(n: nat)
    requires n < Pow256(8)
    ensures ReadVarint([255] + FixedLE(n, 8), 0) ==
      if n <= 0x20_0000_0000_0000 then Got(n, 9)
      else if n == 0x20_0000_0000_0001 then Got(n - 1, 9)
      else Threw
  {
    var b := [255] + FixedLE(n, 8);
    assert b[0..] == b && Stands(b, 0, [255] + FixedLE(n, 8));
    StandsAppend(b, 0, [255], FixedLE(n, 8));
    UIntRoundTrip(b, 1, n, 8);
    assert b[0..1] == [255];
    FirstByteReads(b);
  }

  // An amount is written in eight bytes, or in as many as it needs; either way the bytes are its value.
  lemma AmountIsWritten(n: nat)
    ensures LittleEndian(UInt64Bytes(n)) == n && |UInt64Bytes(n)| >= 8
    ensures |UInt64Bytes(n)| == 8 <==> n < Pow256(8)
  {
    NatToBEValue(n);
    BigEndianIsReversed(NatToBE(n));
    LittleEndianBound(Reverse(NatToBE(n)));
    if n < Pow256(8) {
      NatToBELength(n, 8);
    }
    if |NatToBE(n)| <= 8 {
      PowAtMost(|NatToBE(n)|, 8);
      FixedLEValue(n, 8);
    }
  }

  lemma {:induction false} PowAtMost(a: nat, b: nat)
    requires a <= b
    ensures Pow256(a) <= Pow256(b)
    decreases b
  {
    if a < b { PowAtMost(a, b - 1); }
  }

  lemma UInt64Fits(n: nat)
    requires n < Pow256(8)
    ensures UInt64Bytes(n) == FixedLE(n, 8)
  {
    NatToBELength(n, 8);
  }

  lemma BytesRoundTrip(buf: bytes, pos: nat, b: bytes)
    requires Stands(buf, pos, b)
    ensures ReadBytes(buf, pos, |b|) == Got(b, pos + |b|)
  {
  }

  lemma VarLengthRoundTrip(buf: bytes, pos: nat, b: bytes)
    requires |b| <= MAX_INEXACT && Stands(buf, pos, VarLengthBytes(b))
    ensures ReadVarLength(buf, pos) == Got(b, pos + |VarLengthBytes(b)|)
  {
    StandsAppend(buf, pos, VarintBytes(|b|), b);
    VarintRoundTrip(buf, pos, |b|);
    var at := pos + |VarintBytes(|b|)|;
    BytesRoundTrip(buf, at, b);
    VarLengthAssembles(buf, pos, at, b);
  }

  lemma VarLengthAssembles(buf: bytes, pos: nat, at: nat, b: bytes)
    requires ReadVarint(buf, pos) == Got(|b|, at) && ReadBytes(buf, at, |b|) == Got(b, at + |b|)
    ensures ReadVarLength(buf, pos) == Got(b, at + |b|)
  {
  }

  // Wherever the printed form of x stands in buf, reading there gives x and stops at its end.
  ghost predicate ReadsBack<T(!new)>(item: (bytes, nat) -> Read<T>, put: T -> bytes, buf: bytes, x: T)
  {
    forall p: nat {:trigger Stands(buf, p, put(x))} :: Stands(buf, p, put(x)) ==> item(buf, p) == Got(x, p + |put(x)|)
  }

  // A printed list is read back, provided each of its items is.
  lemma {:induction false} ListRoundTrip<T(!new)>(item: (bytes, nat) -> Read<T>, put: T -> bytes, buf: bytes, pos: nat, xs: seq<T>)
    requires Stands(buf, pos, ConcatMap(put, xs))
    requires forall x :: x in xs ==> ReadsBack(item, put, buf, x)
    ensures ReadList(item, buf, pos, |xs|) == Got(xs, pos + |ConcatMap(put, xs)|)
    decreases |xs|
  {
    if xs != [] {
      StandsAppend(buf, pos, put(xs[0]), ConcatMap(put, xs[1..]));
      assert ReadsBack(item, put, buf, xs[0]);
      ListRoundTrip(item, put, buf, pos + |put(xs[0])|, xs[1..]);
      assert xs == [xs[0]] + xs[1..];
    }
  }

  // ----- bufferreader.js -----

  class BufferReader {
    const buf: bytes
    var pos: nat

    constructor (b: bytes)
      ensures buf == b && pos == 0
    {
      buf, pos := b, 0;
    }

    predicate Finished()
      reads this
    {
      pos >= |buf|
    }

    method ReadRaw(len: nat) returns (b: bytes)
      modifies this
      ensures ReadBytes(buf, old(pos), len) == Got(b, pos)
    {
      b := Slice(buf, pos, pos + len);
      pos := pos + len;
    }

    method ReadUIntLE(size: nat) returns (r: Option<nat>)
      modifies this
      ensures Agrees(r, ReadUInt(buf, old(pos), size))
    {
      if pos + size > |buf| { return None; }
      var n: nat, i := 0, size;
      while i > 0
        invariant 0 <= i <= size && n == LittleEndian(buf[pos + i..pos + size])
      {
        i := i - 1;
        n := 256 * n + buf[pos + i];
        assert buf[pos + i..pos + size][1..] == buf[pos + i + 1..pos + size];
      }
      pos := pos + size;
      r := Some(n);
    }

    method ReadInt32LE() returns (r: Option<int>)
      modifies this
      ensures Agrees(r, ReadInt32(buf, old(pos)))
    {
      var n: int :- ReadUIntLE(4);
      r := Some(if n < 0x8000_0000 then n else n - 0x1_0000_0000);
    }

    method ReadVarintNum() returns (r: Option<nat>)
      modifies this
      ensures Agrees(r, ReadVarint(buf, old(pos)))
    {
      var first :- ReadUIntLE(1);
      if first == 0xFD {
        r := ReadUIntLE(2);
      } else if first == 0xFE {
        r := ReadUIntLE(4);
      } else if first == 0xFF {
        var n :- ReadUIntLE(8);
        if n == MAX_INEXACT + 1 { n := MAX_INEXACT; }
        r := if n <= MAX_INEXACT then Some(n) else None;
      } else {
        r := Some(first);
      }
    }

    method ReadVarLengthBuffer() returns (r: Option<bytes>)
      modifies this
      ensures Agrees(r, ReadVarLength(buf, old(pos)))
    {
      var len :- ReadVarintNum();
      var b := ReadRaw(len);
      r := if |b| == len then Some(b) else None;
    }

    // The outcome of a method: the value and the cursor of the specified read, or nothing when it throws.
    ghost predicate Agrees<T>(r: Option<T>, spec: Read<T>)
      reads this
    {
      match spec
      case Threw => r == None
      case Got(v, p) => r == Some(v) && pos == p
    }
  }

  // ----- bufferwriter.js -----

  class BufferWriter {
    var bufs: seq<bytes>

    constructor ()
      ensures Contents() == []
    {
      bufs := [];
    }

    function Contents(): bytes
      reads this
    {
      ConcatMap((b: bytes) => b, bufs)
    }

    method Write(b: bytes)
      modifies this
      ensures Contents() == old(Contents()) + b
    {
      ConcatMapSnoc((b: bytes) => b, bufs, b);
      bufs := bufs + [b];
    }

    method WriteReverse(b: bytes)
      modifies this
      ensures Contents() == old(Contents()) + Reverse(b)
    {
      Write(Reverse(b));
    }

    method WriteUIntLE(n: nat, size: nat)
      modifies this
      ensures Contents() == old(Contents()) + FixedLE(n, size)
    {
      var b := UIntLE(n, size);
      Write(b);
    }

    method WriteInt32LE(v: int)
      modifies this
      ensures Contents() == old(Contents()) + Int32Bytes(v)
    {
      WriteUIntLE(v % 0x1_0000_0000, 4);
    }

    method WriteVarintNum(n: nat)
      requires n < Pow256(8)
      modifies this
      ensures Contents() == old(Contents()) + VarintBytes(n)
    {
      var b := VarintBufNum(n);
      Write(b);
    }

    method WriteUInt64LE(n: nat)
      modifies this
      ensures Contents() == old(Contents()) + UInt64Bytes(n)
    {
      var be := NatToBE(n);
      if |be| < 8 {
        be := Pad(be, 8);
      }
      PaddedIsFixed(n, be);
      WriteReverse(be);
    }
  }

  // Fixed-width buffers are filled byte by byte.
  method UIntLE(n: nat, size: nat) returns (b: bytes)
    ensures b == FixedLE(n, size)
  {
    var buf := new byte[size](_ => 0);
    var m := n;
    for i := 0 to size
      invariant FixedLE(n, size) == buf[..i] + FixedLE(m, size - i)
    {
      buf[i] := m % 256;
      m := m / 256;
      assert buf[..i + 1] == buf[..i] + [buf[i]];
    }
    assert buf[..] == buf[..size] + FixedLE(m, 0);
    b := buf[..];
  }

  method VarintBufNum(n: nat) returns (b: bytes)
    requires n < Pow256(8)
    ensures b == VarintBytes(n)
  {
    if n < 253 {
      b := [n];
    } else if n < 0x10000 {
      var v := UIntLE(n, 2);
      b := [253] + v;
    } else if n < 0x1_0000_0000 {
      var v := UIntLE(n, 4);
      b := [254] + v;
    } else {
      var lo := UIntLE(n % 0x1_0000_0000, 4);
      var hi := UIntLE(n / 0x1_0000_0000, 4);
      TwoHalves(n);
      b := [255] + (lo + hi);
    }
  }

  function Zeros(n: nat): (z: bytes)
    ensures |z| == n && forall i :: 0 <= i < n ==> z[i] == 0
  {
    if n == 0 then [] else Zeros(n - 1) + [0]
  }

  // bn.js pad: the buffer is copied to the end, then zeros are filled in before it.
  method Pad(buf: bytes, size: nat) returns (r: bytes)
    requires |buf| <= size
    ensures r == Zeros(size - |buf|) + buf
  {
    var rbuf := new byte[size](_ => 0);
    CopyToEnd(buf, rbuf);
    ghost var z := size - |buf|;
    for i := 0 to size - |buf|
      invariant rbuf[z..] == buf
      invariant forall k :: 0 <= k < i ==> rbuf[k] == 0
    {
      rbuf[i] := 0;
    }
    r := rbuf[..];
    assert r == rbuf[..z] + rbuf[z..];
    assert rbuf[..z] == Zeros(z);
  }

  method CopyToEnd(buf: bytes, rbuf: array<byte>)
    requires |buf| <= rbuf.Length
    modifies rbuf
    ensures rbuf[rbuf.Length - |buf|..] == buf
  {
    var n, size := |buf|, rbuf.Length;
    for i := 0 to n
      invariant rbuf[size - i..] == buf[n - i..]
    {
      rbuf[size - 1 - i] := buf[n - 1 - i];
      assert rbuf[size - 1 - i..] == [rbuf[size - 1 - i]] + rbuf[size - i..];
    }
  }

  lemma {:induction false} LeadingZeros(z: nat, b: bytes)
    ensures BigEndian(Zeros(z) + b) == BigEndian(b)
    decreases z + |b|
  {
    if b != [] {
      LeadingZeros(z, b[..|b| - 1]);
      assert (Zeros(z) + b)[..z + |b| - 1] == Zeros(z) + b[..|b| - 1];
    } else if z > 0 {
      LeadingZeros(z - 1, b);
      assert Zeros(z) + b == Zeros(z) && Zeros(z - 1) + b == Zeros(z - 1);
      assert Zeros(z)[..z - 1] == Zeros(z - 1);
    }
  }

  lemma PaddedIsFixed(n: nat, be: bytes)
    requires be == if |NatToBE(n)| < 8 then Zeros(8 - |NatToBE(n)|) + NatToBE(n) else NatToBE(n)
    ensures Reverse(be) == UInt64Bytes(n)
  {
    var nb := NatToBE(n);
    NatToBEValue(n);
    if |nb| < 8 {
      LeadingZeros(8 - |nb|, nb);
    }
    if |nb| <= 8 {
      BigEndianIsReversed(be);
      FixedLEOfValue(Reverse(be));
    }
  }
}
