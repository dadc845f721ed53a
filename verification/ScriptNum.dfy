// Script numbers: the sign-magnitude, little-endian integers of the script machine.
// Encode and Decode say what the format means; the methods are the byte-level routines.

module ScriptNum {
  import opened Bytes

  function Abs(n: int): nat { if n < 0 then -n else n }

  function Last(b: bytes): byte
    requires b != []
  {
    b[|b| - 1]
  }

  // The shortest little-endian bytes of m, none at all for zero.
  function Magnitude(m: nat): bytes
  {
    if m == 0 then [] else [m % 256] + Magnitude(m / 256)
  }

  // The sign goes into the top bit of the last byte, or into one more byte when that bit is taken.
  function WithSign(g: bytes, negative: bool): bytes
  {
    if g == [] then []
    else if Last(g) >= 128 then g + [if negative then 128 else 0]
    else if negative then g[..|g| - 1] + [Last(g) + 128]
    else g
  }

  function Encode(n: int): bytes
  {
    WithSign(Magnitude(Abs(n)), n < 0)
  }

  function Decode(b: bytes): int
  {
    if b == [] then 0
    else
      var m: int := LittleEndian(b[..|b| - 1] + [Last(b) % 128]);
      if Last(b) >= 128 then -m else m
  }

  // A number as an opcode reads it: too long, or not the shortest form when that is asked for, is an error.
  function FromScriptNum(b: bytes, minimal: bool, size: nat): Option<int>
  {
    if |b| > size then None
    else if minimal && Encode(Decode(b)) != b then None
    else Some(Decode(b))
  }

  lemma {:induction false} MagnitudeValue(m: nat)
    ensures LittleEndian(Magnitude(m)) == m
    ensures m > 0 ==> Magnitude(m) != [] && Last(Magnitude(m)) != 0
  {
    if m > 0 {
      MagnitudeValue(m / 256);
      assert Magnitude(m)[1..] == Magnitude(m / 256);
    }
  }

  lemma {:induction false} MagnitudeOfValue(b: bytes)
    requires b == [] || Last(b) != 0
    ensures Magnitude(LittleEndian(b)) == b
    ensures b != [] ==> LittleEndian(b) > 0
  {
    if |b| > 1 {
      MagnitudeOfValue(b[1..]);
    } else if |b| == 1 {
      assert b[1..] == [];
      assert Magnitude(0) == [];
    }
  }

  lemma {:induction false} MagnitudeIsReversedBE(m: nat)
    requires m > 0
    ensures Reverse(NatToBE(m)) == Magnitude(m)
  {
    if m >= 256 {
      var low: byte := m % 256;
      MagnitudeIsReversedBE(m / 256);
      ReverseAppend(NatToBE(m / 256), [low]);
      assert Reverse([low]) == [low];
    } else {
      assert Magnitude(m / 256) == [];
    }
  }

  lemma {:induction false} MagnitudeLength(m: nat, k: nat)
    requires m < Pow256(k)
    ensures |Magnitude(m)| <= k
  {
    if m > 0 && k > 0 {
      MagnitudeLength(m / 256, k - 1);
    }
  }

  // Whatever the bytes of g, signing them and decoding gives plus or minus their value.
  lemma {:induction false} DecodeWithSign(g: bytes, negative: bool)
    ensures Decode(WithSign(g, negative)) == (if negative then -1 else 1) * LittleEndian(g)
  {
    if g != [] {
      var b := WithSign(g, negative);
      var init := b[..|b| - 1];
      if Last(g) >= 128 {
        assert init + [Last(b) % 128] == g + [0];
        LittleEndianAppend(g, [0]);
        assert LittleEndian([0]) == 0;
      } else {
        assert init + [Last(b) % 128] == g;
      }
    }
  }

  // Decoding inverts encoding for every integer.
  lemma DecodeEncode(n: int)
    ensures Decode(Encode(n)) == n
  {
    MagnitudeValue(Abs(n));
    DecodeWithSign(Magnitude(Abs(n)), n < 0);
  }

  // The test the code makes: the last byte carries more than a sign, or its sign bit had to be split off.
  predicate MinimalBytes(b: bytes)
  {
    b == [] || Last(b) % 128 != 0 || (|b| > 1 && b[|b| - 2] >= 128)
  }

  // Minimal bytes are a magnitude without leading zeros, signed.
  lemma MinimalBytesAreSigned(b: bytes) returns (g: bytes)
    requires b != [] && MinimalBytes(b)
    ensures g != [] && Last(g) != 0 && b == WithSign(g, Last(b) >= 128)
  {
    var init, top := b[..|b| - 1], Last(b);
    g := if top % 128 == 0 then init else init + [top % 128];
  }

  lemma EncodedIsMinimal(n: int)
    ensures MinimalBytes(Encode(n))
  {
    MagnitudeValue(Abs(n));
    var g := Magnitude(Abs(n));
    if g != [] && Last(g) >= 128 {
      assert Encode(n)[|g| - 1] == Last(g);
    }
  }

  // That test accepts exactly the encoder's image.
  lemma MinimalIffEncoded(b: bytes)
    ensures MinimalBytes(b) <==> Encode(Decode(b)) == b
  {
    if b != [] && MinimalBytes(b) {
      var g := MinimalBytesAreSigned(b);
      DecodeWithSign(g, Last(b) >= 128);
      MagnitudeOfValue(g);
    }
    EncodedIsMinimal(Decode(b));
  }

  // Minimal-mode decoding accepts exactly the encodings of at most `size` bytes, each as the number encoded.
  lemma MinimalDecodingIsBijective(b: bytes, size: nat, n: int)
    ensures FromScriptNum(b, true, size) == Some(n) <==> (b == Encode(n) && |b| <= size)
  {
    DecodeEncode(n);
  }

  // Numbers of magnitude below 2^(8k-1) take at most k bytes.
  lemma EncodeLength(n: int, k: nat)
    requires k >= 1 && 2 * Abs(n) < Pow256(k)
    ensures |Encode(n)| <= k
  {
    var g := Magnitude(Abs(n));
    MagnitudeLength(Abs(n), k);
    if g != [] && |g| == k && Last(g) >= 128 {
      MagnitudeValue(Abs(n));
      assert g == g[..k - 1] + [Last(g)];
      TopByteAbove(g[..k - 1], Last(g), 128);
      assert false;
    }
  }

  // Conversely k bytes decode to a magnitude below 2^(8k-1).
  lemma DecodeBound(b: bytes)
    requires b != []
    ensures 2 * Abs(Decode(b)) < Pow256(|b|)
  {
    TopByteBelow(b[..|b| - 1], Last(b) % 128, 128);
  }

  // ----- bn.js -----

  method ReverseBuf(buf: array<byte>) returns (buf2: array<byte>)
    ensures fresh(buf2) && buf2[..] == Reverse(buf[..])
  {
    buf2 := new byte[buf.Length];
    for i := 0 to buf.Length
      invariant forall k :: 0 <= k < i ==> buf2[k] == buf[buf.Length - 1 - k]
    {
      buf2[i] := buf[buf.Length - 1 - i];
    }
    forall k: nat | k < buf.Length ensures buf2[..][k] == Reverse(buf[..])[k] { ReverseAt(buf[..], k); }
  }

  // A signed magnitude buffer, in little-endian order: reversed, its sign bit cleared in place, then read.
  method FromSM(b: bytes) returns (n: int)
    ensures n == Decode(b)
  {
    if |b| == 0 { return 0; }
    var buf := new byte[|b|](i requires 0 <= i < |b| => b[i]);
    assert buf[..] == b;
    buf := ReverseBuf(buf);
    assert b == b[..|b| - 1] + [Last(b)];
    ReverseAppend(b[..|b| - 1], [Last(b)]);
    ReadReversed(b);
    if buf[0] >= 128 {
      buf[0] := buf[0] % 128;
      n := BigEndian(buf[..]);
      n := -n;
    } else {
      n := BigEndian(buf[..]);
    }
    assert buf[..] == [Last(b) % 128] + Reverse(b[..|b| - 1]);
  }

  // Read from its reversal: the sign bit is the first byte's highest, the magnitude what is left when it is cleared.
  lemma ReadReversed(b: bytes)
    requires |b| > 0
    ensures var m: int := BigEndian([Last(b) % 128] + Reverse(b[..|b| - 1])); Decode(b) == if Last(b) >= 128 then -m else m
  {
    FromTheEnd(b[..|b| - 1], Last(b) % 128);
  }

  lemma FromTheEnd(init: bytes, top: byte)
    ensures BigEndian([top] + Reverse(init)) == LittleEndian(init + [top])
  {
    BigEndianIsReversed([top] + Reverse(init));
    ReverseAppend([top], Reverse(init));
    ReverseTwice(init);
  }

  method FromScriptNumBuffer(b: bytes, minimal: bool, size: nat) returns (r: Option<int>)
    ensures r == FromScriptNum(b, minimal, size)
  {
    MinimalIffEncoded(b);
    if |b| > size { return None; }
    if minimal && |b| > 0 {
      if b[|b| - 1] % 128 == 0 {
        if |b| <= 1 || b[|b| - 2] < 128 { return None; }
      }
    }
    var n := FromSM(b);
    r := Some(n);
  }

  // Big-endian with the sign in the top bit of the first byte; zero is the empty buffer.
  method ToSMBigEndian(n: int) returns (buf: bytes)
    ensures Reverse(buf) == Encode(n)
  {
    if n != 0 { MagnitudeIsReversedBE(Abs(n)); }
    if n < 0 {
      buf := NatToBE(-n);
      ReverseAppend(buf[..1], buf[1..]);
      assert buf == buf[..1] + buf[1..];
      if buf[0] >= 128 {
        buf := [128] + buf;
      } else {
        ReverseAppend([buf[0] + 128], buf[1..]);
        buf := buf[0 := buf[0] + 128];
        assert buf == [buf[0]] + buf[1..];
      }
    } else {
      buf := NatToBE(n);
      if buf[0] >= 128 {
        buf := [0] + buf;
      }
    }
    if |buf| == 1 && buf[0] == 0 {
      buf := [];
    }
  }

  method ToScriptNumBuffer(n: int) returns (b: bytes)
    ensures b == Encode(n)
  {
    var buf := ToSMBigEndian(n);
    var a := new byte[|buf|](i requires 0 <= i < |buf| => buf[i]);
    assert a[..] == buf;
    var r := ReverseBuf(a);
    b := r[..];
  }

  // ----- the second encoder, silubiumjs-lib utils.js -----

  // The value of a number once a bitwise operator has truncated it to 32 signed bits.
  function ToInt32(n: int): int
  {
    (n + 0x8000_0000) % 0x1_0000_0000 - 0x8000_0000
  }

  // What the encoding loop has done when `num` is left of the magnitude m.
  ghost predicate Written(m: nat, buffer: bytes, num: int)
  {
    && 0 <= num <= m
    && (if buffer == [] then num == m
        else num < 0x80_0000 && LittleEndian(buffer) + Pow256(|buffer|) * num == ToInt32(m))
    && (m < 0x8000_0000 ==> Magnitude(m) == buffer + Magnitude(num))
  }

  lemma WrittenStep(m: nat, buffer: bytes, num: nat)
    requires Written(m, buffer, num) && ToInt32(m) >= 0 && num != 0
    ensures 0 <= ToInt32(num) <= num
    ensures Written(m, buffer + [ToInt32(num) % 256], ToInt32(num) / 256)
  {
    var t := ToInt32(num);
    if buffer == [] {
      FirstByte(t);
    } else {
      assert t == num;
      BaseStep(buffer, t);
    }
    if m < 0x8000_0000 {
      assert t == num;
      assert buffer + Magnitude(num) == buffer + [t % 256] + Magnitude(t / 256);
    }
  }

  lemma FirstByte(t: nat)
    ensures LittleEndian([] + [t % 256]) + Pow256(1) * (t / 256) == t
  {
    BaseStep([], t);
    assert Pow256(0) * t == t;
  }

  // It stops exactly when the truncated magnitude is not negative (NumberToBufferDiverges), and then
  // agrees with the script encoding exactly on magnitudes below 2^31.
  method NumberToBuffer(n: int) returns (b: bytes)
    requires ToInt32(Abs(n)) >= 0
    ensures b == Encode(n) <==> Abs(n) < 0x8000_0000
  {
    var negative := n < 0;
    var num: int := Abs(n);
    var buffer: bytes := [];
    while num != 0
      invariant Written(Abs(n), buffer, num)
      decreases num
    {
      WrittenStep(Abs(n), buffer, num);
      buffer := buffer + [ToInt32(num) % 256];
      num := ToInt32(num) / 256;
    }
    ghost var g := buffer;
    if |buffer| > 0 {
      var top := buffer[|buffer| - 1];
      if top >= 128 {
        buffer := buffer + [if negative then 128 else 0];
      } else if negative {
        buffer := buffer[|buffer| - 1 := top + 128];
      }
    }
    b := buffer;
    assert b == WithSign(g, negative);
    if Abs(n) >= 0x8000_0000 {
      Truncated(n, g);
    }
  }

  lemma Truncated(n: int, g: bytes)
    requires Abs(n) >= 0x8000_0000 && Written(Abs(n), g, 0)
    ensures WithSign(g, n < 0) != Encode(n)
  {
    DecodeWithSign(g, n < 0);
    DecodeEncode(n);
  }

  lemma Digits(p: int, t: nat)
    ensures p * (t % 256) + (256 * p) * (t / 256) == p * t
  {
    var q, r := t / 256, t % 256;
    assert t == 256 * q + r;
    MulAssoc(p, 256, q);
    Distribute(p, 256 * q, r);
  }

  lemma Distribute(p: int, x: int, y: int)
    ensures p * (x + y) == p * x + p * y
  {
  }

  // Moving the low byte of t to the end of the buffer keeps the number they represent together.
  lemma BaseStep(before: bytes, t: nat)
    ensures LittleEndian(before + [t % 256]) + Pow256(|before| + 1) * (t / 256)
         == LittleEndian(before) + Pow256(|before|) * t
  {
    var p, q := Pow256(|before|), Pow256(|before| + 1);
    assert q == 256 * p;
    LittleEndianSnoc(before, t % 256);
    Digits(p, t);
  }

  // The k-th value of the loop variable.
  function Shifted(num: int, k: nat): int
  {
    if k == 0 then num else ToInt32(Shifted(num, k - 1)) / 256
  }

  // A magnitude whose truncation is negative never reaches zero: the loop does not end.
  lemma {:induction false} NumberToBufferDiverges(num: nat, k: nat)
    requires ToInt32(num) < 0
    ensures ToInt32(Shifted(num, k)) < 0 && Shifted(num, k) != 0
  {
    if k > 0 {
      NumberToBufferDiverges(num, k - 1);
    }
  }
}
