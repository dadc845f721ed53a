// Scripts: opcode numbers, chunk lists and their byte form (opcode.js, script/script.js).

module Opcode {
  const OP_0 := 0
  const OP_PUSHDATA1 := 76
  const OP_PUSHDATA2 := 77
  const OP_PUSHDATA4 := 78
  const OP_1NEGATE := 79
  const OP_1 := 81
  const OP_16 := 96
  const OP_NOP := 97
  const OP_IF := 99
  const OP_NOTIF := 100
  const OP_VERIF := 101
  const OP_VERNOTIF := 102
  const OP_ELSE := 103
  const OP_ENDIF := 104
  const OP_VERIFY := 105
  const OP_TOALTSTACK := 107
  const OP_FROMALTSTACK := 108
  const OP_2DROP := 109
  const OP_2DUP := 110
  const OP_3DUP := 111
  const OP_2OVER := 112
  const OP_2ROT := 113
  const OP_2SWAP := 114
  const OP_IFDUP := 115
  const OP_DEPTH := 116
  const OP_DROP := 117
  const OP_DUP := 118
  const OP_NIP := 119
  const OP_OVER := 120
  const OP_PICK := 121
  const OP_ROLL := 122
  const OP_ROT := 123
  const OP_SWAP := 124
  const OP_TUCK := 125
  const OP_CAT := 126
  const OP_SUBSTR := 127
  const OP_LEFT := 128
  const OP_RIGHT := 129
  const OP_SIZE := 130
  const OP_INVERT := 131
  const OP_AND := 132
  const OP_OR := 133
  const OP_XOR := 134
  const OP_EQUAL := 135
  const OP_EQUALVERIFY := 136
  const OP_1ADD := 139
  const OP_1SUB := 140
  const OP_2MUL := 141
  const OP_2DIV := 142
  const OP_NEGATE := 143
  const OP_ABS := 144
  const OP_NOT := 145
  const OP_0NOTEQUAL := 146
  const OP_ADD := 147
  const OP_SUB := 148
  const OP_MUL := 149
  const OP_DIV := 150
  const OP_MOD := 151
  const OP_LSHIFT := 152
  const OP_RSHIFT := 153
  const OP_BOOLAND := 154
  const OP_BOOLOR := 155
  const OP_NUMEQUAL := 156
  const OP_NUMEQUALVERIFY := 157
  const OP_NUMNOTEQUAL := 158
  const OP_LESSTHAN := 159
  const OP_GREATERTHAN := 160
  const OP_LESSTHANOREQUAL := 161
  const OP_GREATERTHANOREQUAL := 162
  const OP_MIN := 163
  const OP_MAX := 164
  const OP_WITHIN := 165
  const OP_RIPEMD160 := 166
  const OP_SHA1 := 167
  const OP_SHA256 := 168
  const OP_HASH160 := 169
  const OP_HASH256 := 170
  const OP_CODESEPARATOR := 171
  const OP_CHECKSIG := 172
  const OP_CHECKSIGVERIFY := 173
  const OP_CHECKMULTISIG := 174
  const OP_CHECKMULTISIGVERIFY := 175
  const OP_NOP1 := 176
  const OP_CHECKLOCKTIMEVERIFY := 177  // also OP_NOP2
  const OP_NOP3 := 178
  const OP_NOP10 := 185
}

module Script {
  import opened Bytes
  import opened Encoding
  import opened Opcode

  // A chunk is an opcode alone, or a push with its data and the length it announced.
  datatype Chunk = Plain(opcode: byte) | Data(opcode: byte, buf: bytes, len: nat)

  function LengthBytes(opcode: byte): nat
  {
    if opcode == OP_PUSHDATA1 then 1 else if opcode == OP_PUSHDATA2 then 2 else if opcode == OP_PUSHDATA4 then 4 else 0
  }

  function ChunkBytes(c: Chunk): bytes
  {
    match c
    case Plain(op) => [op]
    case Data(op, buf, len) => if op > OP_PUSHDATA4 then [op] else [op] + FixedLE(len, LengthBytes(op)) + buf
  }

  function ToBuffer(cs: seq<Chunk>): bytes
  {
    ConcatMap(ChunkBytes, cs)
  }

  function ReadChunk(b: bytes, pos: nat): Read<Chunk>
  {
    var (opnum, p) :- ReadUInt(b, pos, 1);
    var op: byte := opnum % 256;
    if op == 0 || op > OP_PUSHDATA4 then Got(Plain(op), p)
    else
      var (len, q) :- if op < OP_PUSHDATA1 then Got(op, p) else ReadUInt(b, p, LengthBytes(op));
      var (buf, r) :- ReadBytes(b, q, len);
      Got(Data(op, buf, len), r)
  }

  lemma ReadChunkAdvances(b: bytes, pos: nat)
    ensures ReadChunk(b, pos).Got? ==> ReadChunk(b, pos).pos > pos
  {
  }

  // Chunks up to the end of the buffer; None when a length byte is missing.
  function ChunksFrom(b: bytes, pos: nat): Option<seq<Chunk>>
    decreases |b| - pos
  {
    ReadChunkAdvances(b, pos);
    if pos >= |b| then Some([])
    else match ReadChunk(b, pos)
      case Threw => None
      case Got(c, p) =>
        var rest :- ChunksFrom(b, p);
        Some([c] + rest)
  }

  function FromBuffer(b: bytes): Option<seq<Chunk>>
  {
    ChunksFrom(b, 0)
  }

  // ----- the byte form determines the chunks and the other way round -----

  // A chunk as reading makes it, all of its data present.
  predicate Whole(c: Chunk)
  {
    Readable(c) && (c.Data? ==> c.len == |c.buf|)
  }

  // The same, except that the data may have been cut short by the end of the buffer.
  predicate Readable(c: Chunk)
  {
    match c
    case Plain(op) => op == 0 || op > OP_PUSHDATA4
    case Data(op, buf, len) =>
      && 0 < op <= OP_PUSHDATA4 && |buf| <= len
      && (if op < OP_PUSHDATA1 then len == op else len < Pow256(LengthBytes(op)))
  }

  // Chunks as reading makes them: whole, up to the last.
  predicate ParsedForm(cs: seq<Chunk>)
  {
    cs == [] || (if |cs| == 1 then Readable(cs[0]) else Whole(cs[0]) && ParsedForm(cs[1..]))
  }

  lemma OneByte(b: bytes, pos: nat)
    requires pos < |b|
    ensures ReadUInt(b, pos, 1) == Got(b[pos], pos + 1) && Stands(b, pos, [b[pos]])
  {
    var x := b[pos..pos + 1];
    assert x == [b[pos]] && x[0] == b[pos] && x[1..] == [];
    assert LittleEndian(x) == x[0] + 256 * LittleEndian(x[1..]);
  }

  // Reading at pos: the chunk's bytes stand there, whole unless the buffer ends.
  lemma ReadChunkSound(b: bytes, pos: nat)
    requires pos < |b| && ReadChunk(b, pos).Got?
    ensures var r := ReadChunk(b, pos);
      && Readable(r.value) && Stands(b, pos, ChunkBytes(r.value))
      && (if r.pos <= |b| then Whole(r.value) && r.pos == pos + |ChunkBytes(r.value)| else |b| == pos + |ChunkBytes(r.value)|)
  {
    OneByte(b, pos);
    var op := b[pos];
    if 0 < op <= OP_PUSHDATA4 {
      PushSound(b, pos, op);
    }
  }

  // The length field and the data of a push.
  lemma PushReads(b: bytes, pos: nat, op: byte, k: nat) returns (len: nat, q: nat)
    requires pos < |b| && b[pos] == op && 0 < op <= OP_PUSHDATA4 && k == LengthBytes(op)
    requires ReadUInt(b, pos, 1) == Got(op, pos + 1)
    requires ReadChunk(b, pos).Got?
    ensures q == pos + 1 + k <= |b|
    ensures ReadChunk(b, pos) == Got(Chunk.Data(op, Slice(b, q, q + len), len), q + len)
    ensures Stands(b, pos + 1, FixedLE(len, k))
    ensures if op < OP_PUSHDATA1 then len == op else len < Pow256(k)
  {
    q := pos + 1 + k;
    if op < OP_PUSHDATA1 {
      len := op;
      assert b[pos + 1..pos + 1] == [];
    } else {
      len := ReadUInt(b, pos + 1, k).value;
      ReadLengthSound(b, pos + 1, k);
    }
  }

  lemma PushSound(b: bytes, pos: nat, op: byte)
    requires pos < |b| && b[pos] == op && 0 < op <= OP_PUSHDATA4
    requires ReadUInt(b, pos, 1) == Got(op, pos + 1) && Stands(b, pos, [op])
    requires ReadChunk(b, pos).Got?
    ensures var r := ReadChunk(b, pos);
      && Readable(r.value) && Stands(b, pos, ChunkBytes(r.value))
      && (if r.pos <= |b| then Whole(r.value) && r.pos == pos + |ChunkBytes(r.value)| else |b| == pos + |ChunkBytes(r.value)|)
  {
    var k := LengthBytes(op);
    var len, q := PushReads(b, pos, op, k);
    var head, buf := [op] + FixedLE(len, k), Slice(b, q, q + len);
    StandsAppend(b, pos, [op], FixedLE(len, k));
    assert pos + |head| == q && Stands(b, q, buf);
    StandsAppend(b, pos, head, buf);
  }

  lemma ReadLengthSound(b: bytes, pos: nat, k: nat)
    requires ReadUInt(b, pos, k).Got?
    ensures ReadUInt(b, pos, k).value < Pow256(k)
    ensures Stands(b, pos, FixedLE(ReadUInt(b, pos, k).value, k))
    ensures k == 0 ==> forall n: nat :: FixedLE(n, k) == []
  {
    LittleEndianBound(b[pos..pos + k]);
    FixedLEOfValue(b[pos..pos + k]);
  }

  lemma PushAssembles(b: bytes, pos: nat, c: Chunk, q: nat)
    requires Readable(c) && c.Data? && ReadUInt(b, pos, 1) == Got(c.opcode, pos + 1)
    requires q == pos + 1 + LengthBytes(c.opcode) && Slice(b, q, q + c.len) == c.buf
    requires c.opcode >= OP_PUSHDATA1 ==> ReadUInt(b, pos + 1, LengthBytes(c.opcode)) == Got(c.len, q)
    ensures ReadChunk(b, pos) == Got(c, q + c.len)
  {
    assert ReadBytes(b, q, c.len) == Got(c.buf, q + c.len);
    if c.opcode < OP_PUSHDATA1 { assert q == pos + 1 && c.len == c.opcode; }
  }

  lemma FirstByteOfChunk(b: bytes, pos: nat, c: Chunk)
    requires Stands(b, pos, ChunkBytes(c))
    ensures pos < |b| && b[pos] == c.opcode
  {
    var bs := ChunkBytes(c);
    assert |bs| > 0 && bs[0] == c.opcode;
    assert b[pos] == b[pos..pos + |bs|][0];
  }

  // A chunk standing at pos is read, if it is whole or if it reaches the end of the buffer.
  lemma ReadChunkComplete(b: bytes, pos: nat, c: Chunk)
    requires Readable(c) && Stands(b, pos, ChunkBytes(c))
    requires Whole(c) || pos + |ChunkBytes(c)| == |b|
    ensures ReadChunk(b, pos).Got? && ReadChunk(b, pos).value == c
    ensures Whole(c) ==> ReadChunk(b, pos).pos == pos + |ChunkBytes(c)|
    ensures !Whole(c) ==> ReadChunk(b, pos).pos > |b|
  {
    FirstByteOfChunk(b, pos, c);
    OneByte(b, pos);
    if c.Data? {
      var q := pos + 1 + LengthBytes(c.opcode);
      PushStands(b, pos, c, q);
      PushAssembles(b, pos, c, q);
    }
  }

  lemma PushStands(b: bytes, pos: nat, c: Chunk, q: nat)
    requires Readable(c) && c.Data? && Stands(b, pos, ChunkBytes(c)) && q == pos + 1 + LengthBytes(c.opcode)
    ensures c.opcode >= OP_PUSHDATA1 ==> ReadUInt(b, pos + 1, LengthBytes(c.opcode)) == Got(c.len, q)
    ensures Stands(b, q, c.buf) && pos + |ChunkBytes(c)| == q + |c.buf|
    ensures Whole(c) || q + |c.buf| == |b| ==> Slice(b, q, q + c.len) == c.buf
  {
    var k := LengthBytes(c.opcode);
    StandsAppend(b, pos, [c.opcode] + FixedLE(c.len, k), c.buf);
    StandsAppend(b, pos, [c.opcode], FixedLE(c.len, k));
    if k > 0 {
      UIntRoundTrip(b, pos + 1, c.len, k);
    }
  }

  lemma FirstChunk(b: bytes, pos: nat)
    requires pos < |b| && ChunksFrom(b, pos).Some?
    ensures var r := ReadChunk(b, pos);
      r.Got? && ChunksFrom(b, r.pos).Some? && ChunksFrom(b, pos) == Some([r.value] + ChunksFrom(b, r.pos).value)
    ensures pos < ReadChunk(b, pos).pos
  {
    ReadChunkAdvances(b, pos);
  }

  lemma {:induction false} ChunksFromSound(b: bytes, pos: nat)
    requires pos <= |b| && ChunksFrom(b, pos).Some?
    ensures ParsedForm(ChunksFrom(b, pos).value) && ToBuffer(ChunksFrom(b, pos).value) == b[pos..]
    decreases |b| - pos
  {
    if pos < |b| {
      FirstChunk(b, pos);
      ReadChunkSound(b, pos);
      var Got(c, p) := ReadChunk(b, pos);
      var rest := ChunksFrom(b, p).value;
      if p <= |b| {
        ChunksFromSound(b, p);
      }
      SoundInFront(b, pos, c, p, rest);
    }
  }

  lemma SoundInFront(b: bytes, pos: nat, c: Chunk, p: nat, rest: seq<Chunk>)
    requires Readable(c) && Stands(b, pos, ChunkBytes(c))
    requires if p <= |b| then Whole(c) && p == pos + |ChunkBytes(c)| && ParsedForm(rest) && ToBuffer(rest) == b[p..]
      else |b| == pos + |ChunkBytes(c)| && rest == []
    ensures ParsedForm([c] + rest) && ToBuffer([c] + rest) == b[pos..]
  {
    ChunkInFront(c, rest);
    RestOf(b, pos, ChunkBytes(c));
  }

  lemma RestOf(b: bytes, pos: nat, part: bytes)
    requires Stands(b, pos, part)
    ensures part + b[pos + |part|..] == b[pos..]
  {
  }

  lemma ChunkInFront(c: Chunk, rest: seq<Chunk>)
    ensures ToBuffer([c] + rest) == ChunkBytes(c) + ToBuffer(rest)
    ensures Readable(c) && (Whole(c) || rest == []) && ParsedForm(rest) ==> ParsedForm([c] + rest)
  {
    assert ([c] + rest)[1..] == rest;
  }

  lemma {:induction false} ChunksFromComplete(b: bytes, pos: nat, cs: seq<Chunk>)
    requires pos <= |b| && ParsedForm(cs) && ToBuffer(cs) == b[pos..]
    ensures ChunksFrom(b, pos) == Some(cs)
    decreases |cs|
  {
    if cs != [] {
      var n := |ChunkBytes(cs[0])|;
      var rest := ToBuffer(cs[1..]);
      assert b[pos..] == ChunkBytes(cs[0]) + rest;
      assert b[pos..pos + n] == b[pos..][..n] && b[pos + n..] == b[pos..][n..];
      assert cs == [cs[0]] + cs[1..];
      if |cs| == 1 {
        assert cs[1..] == [] && pos + n == |b|;
      }
      ReadChunkComplete(b, pos, cs[0]);
      ReadChunkAdvances(b, pos);
      if Whole(cs[0]) {
        ChunksFromComplete(b, pos + n, cs[1..]);
      } else {
        assert ChunksFrom(b, ReadChunk(b, pos).pos) == Some([]);
      }
    }
  }

  // Reading a buffer gives cs exactly when cs has the form reading produces and prints as that buffer.
  // In particular printing whatever was accepted gives back the same bytes, truncated last push included.
  lemma ParseIffPrint(b: bytes, cs: seq<Chunk>)
    ensures FromBuffer(b) == Some(cs) <==> ParsedForm(cs) && ToBuffer(cs) == b
  {
    assert b[0..] == b;
    if FromBuffer(b) == Some(cs) {
      ChunksFromSound(b, 0);
    }
    if ParsedForm(cs) && ToBuffer(cs) == b {
      ChunksFromComplete(b, 0, cs);
    }
  }

  lemma {:induction false} WholeIsParsed(cs: seq<Chunk>)
    requires forall i :: 0 <= i < |cs| ==> Whole(cs[i])
    ensures ParsedForm(cs)
  {
    if cs != [] {
      WholeIsParsed(cs[1..]);
    }
  }

  lemma {:induction false} ToBufferAppend(xs: seq<Chunk>, ys: seq<Chunk>)
    ensures ToBuffer(xs + ys) == ToBuffer(xs) + ToBuffer(ys)
  {
    if xs == [] {
      assert xs + ys == ys;
    } else {
      ToBufferAppend(xs[1..], ys);
      assert (xs + ys)[1..] == xs[1..] + ys;
    }
  }

  // ----- building and classifying -----

  function SmallInt(n: nat): Chunk
    requires n <= 16
  {
    if n == 0 then Plain(OP_0) else Plain(OP_1 + n - 1)
  }

  const MAX_PUSH: nat := 0x1_0000_0000

  // The push of a buffer, with the shortest length field.
  function PushOf(buf: bytes): Chunk
    requires |buf| < MAX_PUSH
  {
    var op: byte := if |buf| < OP_PUSHDATA1 then |buf| else if |buf| < 0x100 then OP_PUSHDATA1
      else if |buf| < 0x10000 then OP_PUSHDATA2 else OP_PUSHDATA4;
    Data(op, buf, |buf|)
  }

  lemma PushOfIsWhole(buf: bytes)
    requires 0 < |buf| < MAX_PUSH
    ensures Whole(PushOf(buf))
  {
    Powers();
  }

  function PublicKeyHashOut(h: bytes): seq<Chunk>
    requires |h| < MAX_PUSH
  {
    [Plain(OP_DUP), Plain(OP_HASH160), PushOf(h), Plain(OP_EQUALVERIFY), Plain(OP_CHECKSIG)]
  }

  // The signature comes with its hash type.
  function PublicKeyHashIn(sig: bytes, key: bytes): seq<Chunk>
    requires |sig| < MAX_PUSH && |key| < MAX_PUSH
  {
    [PushOf(sig), PushOf(key)]
  }

  predicate IsPushOnly(cs: seq<Chunk>)
  {
    forall i :: 0 <= i < |cs| ==> cs[i].opcode <= OP_16
  }

  predicate IsScriptHashOut(cs: seq<Chunk>)
  {
    var b := ToBuffer(cs);
    |b| == 23 && b[0] == OP_HASH160 && b[1] == 0x14 && b[22] == OP_EQUAL
  }

  // Scripts are taken for script-hash outputs by their bytes: exactly those that print as a hash between the two opcodes.
  lemma ScriptHashOutIff(cs: seq<Chunk>)
    ensures IsScriptHashOut(cs) <==> exists h: bytes :: |h| == 20 && ToBuffer(cs) == [OP_HASH160, 0x14] + h + [OP_EQUAL]
  {
    var b := ToBuffer(cs);
    if IsScriptHashOut(cs) {
      assert b == [OP_HASH160, 0x14] + b[2..22] + [OP_EQUAL];
    }
  }

  predicate CheckMinimalPush(c: Chunk)
  {
    match c
    case Plain(_) => true
    case Data(op, buf, _) =>
      if |buf| == 0 then op == OP_0
      else if |buf| == 1 && 1 <= buf[0] <= 16 then op == OP_1 + (buf[0] - 1)
      else if |buf| == 1 && buf[0] == 0x81 then op == OP_1NEGATE
      else if |buf| <= 75 then op == |buf|
      else if |buf| <= 255 then op == OP_PUSHDATA1
      else if |buf| <= 65535 then op == OP_PUSHDATA2
      else true
  }

  // The value a chunk pushes, if it pushes one.
  function PushedValue(c: Chunk): Option<bytes>
  {
    match c
    case Plain(op) =>
      if op == OP_0 then Some([])
      else if op == OP_1NEGATE then Some([0x81])
      else if OP_1 <= op <= OP_16 then Some([op - (OP_1 - 1)])
      else None
    case Data(_, buf, _) => Some(buf)
  }

  // No other chunk pushes the same value in fewer bytes.
  ghost predicate Shortest(c: Chunk)
  {
    forall other :: Whole(other) && PushedValue(other) == PushedValue(c) ==> |ChunkBytes(c)| <= |ChunkBytes(other)|
  }

  // The test for minimal pushes accepts exactly the shortest ones.
  lemma MinimalPushIsShortest(c: Chunk)
    requires Whole(c) && c.Data?
    ensures CheckMinimalPush(c) <==> Shortest(c)
  {
    Powers();
    if CheckMinimalPush(c) {
      forall other | Whole(other) && PushedValue(other) == PushedValue(c) ensures |ChunkBytes(c)| <= |ChunkBytes(other)| {
        MinimalBeats(c, other);
      }
    } else {
      var better := ShorterPush(c);
      assert Whole(better) && PushedValue(better) == PushedValue(c) && |ChunkBytes(better)| < |ChunkBytes(c)|;
    }
  }

  lemma MinimalBeats(c: Chunk, other: Chunk)
    requires Whole(c) && c.Data? && CheckMinimalPush(c) && Whole(other) && PushedValue(other) == PushedValue(c)
    ensures |ChunkBytes(c)| <= |ChunkBytes(other)|
  {
    Powers();
  }

  lemma ShorterPush(c: Chunk) returns (better: Chunk)
    requires Whole(c) && c.Data? && !CheckMinimalPush(c)
    ensures Whole(better) && PushedValue(better) == PushedValue(c) && |ChunkBytes(better)| < |ChunkBytes(c)|
  {
    Powers();
    var buf := c.buf;
    if buf == [] {
      better := Plain(OP_0);
    } else if |buf| == 1 && 1 <= buf[0] <= 16 {
      better := Plain(OP_1 + (buf[0] - 1));
      assert [buf[0]] == buf;
    } else if |buf| == 1 && buf[0] == 0x81 {
      better := Plain(OP_1NEGATE);
    } else {
      better := PushOf(buf);
    }
  }

  function WithoutSeparators(cs: seq<Chunk>): seq<Chunk>
  {
    if cs == [] then []
    else (if cs[0].opcode != OP_CODESEPARATOR then [cs[0]] else []) + WithoutSeparators(cs[1..])
  }

  lemma {:induction false} WithoutSeparatorsSnoc(cs: seq<Chunk>, c: Chunk)
    ensures WithoutSeparators(cs + [c]) == WithoutSeparators(cs) + if c.opcode != OP_CODESEPARATOR then [c] else []
  {
    if cs == [] {
      assert cs + [c] == [c] && [c][1..] == [];
    } else {
      WithoutSeparatorsSnoc(cs[1..], c);
      assert (cs + [c])[1..] == cs[1..] + [c];
    }
  }

  lemma {:induction false} WithoutSeparatorsAppend(xs: seq<Chunk>, ys: seq<Chunk>)
    ensures WithoutSeparators(xs + ys) == WithoutSeparators(xs) + WithoutSeparators(ys)
  {
    if xs == [] {
      assert xs + ys == ys;
    } else {
      WithoutSeparatorsAppend(xs[1..], ys);
      assert (xs + ys)[1..] == xs[1..] + ys;
    }
  }

  lemma {:induction false} NoSeparatorsToDrop(cs: seq<Chunk>)
    requires forall i :: 0 <= i < |cs| ==> cs[i].opcode != OP_CODESEPARATOR
    ensures WithoutSeparators(cs) == cs
  {
    if cs != [] { NoSeparatorsToDrop(cs[1..]); }
  }

  // ----- deleting a push -----

  predicate Matches(c: Chunk, target: bytes) { ChunkBytes(c) == target }

  // The chunks left: after a deletion the loop steps over the next chunk without looking at it.
  function Deleted(cs: seq<Chunk>, target: bytes): seq<Chunk>
  {
    if cs == [] then []
    else if !Matches(cs[0], target) then [cs[0]] + Deleted(cs[1..], target)
    else if |cs| == 1 then []
    else [cs[1]] + Deleted(cs[2..], target)
  }

  function CountMatches(cs: seq<Chunk>, target: bytes): nat
  {
    if cs == [] then 0 else (if Matches(cs[0], target) then 1 else 0) + CountMatches(cs[1..], target)
  }

  // Nothing that matches, nothing deleted.
  lemma {:induction false} DeletesNothingElse(cs: seq<Chunk>, target: bytes)
    requires forall i :: 0 <= i < |cs| ==> !Matches(cs[i], target)
    ensures Deleted(cs, target) == cs
  {
    if cs != [] {
      DeletesNothingElse(cs[1..], target);
    }
  }

  // Of a run of k matches at the front, floor(k/2) survive; what comes after it is treated as if it stood alone.
  lemma {:induction false} RunLeavesHalf(cs: seq<Chunk>, k: nat, target: bytes)
    requires k <= |cs| && (forall i :: 0 <= i < k ==> Matches(cs[i], target))
    requires k < |cs| ==> !Matches(cs[k], target)
    ensures k / 2 <= |Deleted(cs, target)| && Deleted(cs, target)[k / 2..] == Deleted(cs[k..], target)
    ensures forall i :: 0 <= i < k / 2 ==> Matches(Deleted(cs, target)[i], target)
  {
    if k >= 2 {
      RunLeavesHalf(cs[2..], k - 2, target);
      assert cs[2..][k - 2..] == cs[k..];
      var d := Deleted(cs[2..], target);
      assert Deleted(cs, target) == [cs[1]] + d;
      assert ([cs[1]] + d)[k / 2..] == d[(k - 2) / 2..];
    } else if k == 1 && |cs| > 1 {
      assert cs[1..][1..] == cs[2..];
    }
  }

  predicate AdjacentMatches(cs: seq<Chunk>, target: bytes)
  {
    |cs| >= 2 && ((Matches(cs[0], target) && Matches(cs[1], target)) || AdjacentMatches(cs[1..], target))
  }

  // Every match is gone exactly when no two stood next to each other.
  lemma {:induction false} DeletesAllIffNoneAdjacent(cs: seq<Chunk>, target: bytes)
    ensures CountMatches(Deleted(cs, target), target) == 0 <==> !AdjacentMatches(cs, target)
  {
    if cs != [] {
      if !Matches(cs[0], target) {
        DeletesAllIffNoneAdjacent(cs[1..], target);
      } else if |cs| > 1 {
        DeletesAllIffNoneAdjacent(cs[2..], target);
        assert cs[1..][1..] == cs[2..];
      }
    }
  }

  // ----- the mutable script -----

  class ScriptBuilder {
    var chunks: seq<Chunk>

    constructor (cs: seq<Chunk>)
      ensures chunks == cs
    {
      chunks := cs;
    }

    method AddBuffer(buf: bytes)
      requires |buf| < MAX_PUSH
      modifies this
      ensures chunks == old(chunks) + [PushOf(buf)]
    {
      var opcode: byte;
      if |buf| < OP_PUSHDATA1 {
        opcode := |buf|;
      } else if |buf| < 0x100 {
        opcode := OP_PUSHDATA1;
      } else if |buf| < 0x10000 {
        opcode := OP_PUSHDATA2;
      } else {
        opcode := OP_PUSHDATA4;
      }
      chunks := chunks + [Data(opcode, buf, |buf|)];
    }

    method RemoveCodeseparators()
      modifies this
      ensures chunks == WithoutSeparators(old(chunks))
    {
      var kept := [];
      for i := 0 to |chunks|
        invariant chunks == old(chunks) && kept == WithoutSeparators(chunks[..i])
      {
        assert chunks[..i + 1] == chunks[..i] + [chunks[i]];
        WithoutSeparatorsSnoc(chunks[..i], chunks[i]);
        if chunks[i].opcode != OP_CODESEPARATOR {
          kept := kept + [chunks[i]];
        }
      }
      assert chunks[..|chunks|] == chunks;
      chunks := kept;
    }

    // Splices out a match and moves on, so the chunk that slides into its place is not examined.
    method FindAndDelete(target: bytes)
      modifies this
      ensures chunks == Deleted(old(chunks), target)
    {
      var i := 0;
      assert chunks[0..] == chunks;
      while i < |chunks|
        invariant 0 <= i && Scanned(old(chunks), chunks, i, target)
        decreases |chunks| - i
      {
        ScanStep(old(chunks), chunks, i, target);
        if Matches(chunks[i], target) {
          chunks := chunks[..i] + chunks[i + 1..];
        }
        i := i + 1;
      }
    }
  }

  // What the scan from position i on will leave.
  ghost function Leaves(cs: seq<Chunk>, i: nat, target: bytes): seq<Chunk>
  {
    if i < |cs| then cs[..i] + Deleted(cs[i..], target) else cs
  }

  ghost predicate Scanned(before: seq<Chunk>, cs: seq<Chunk>, i: nat, target: bytes)
  {
    Deleted(before, target) == Leaves(cs, i, target)
  }

  lemma LeavesFrom(front: seq<Chunk>, rest: seq<Chunk>, target: bytes)
    ensures Leaves(front + rest, |front|, target) == front + Deleted(rest, target)
  {
    if rest == [] {
      assert front + rest == front;
    } else {
      assert (front + rest)[|front|..] == rest && (front + rest)[..|front|] == front;
    }
  }

  // One round, on a list taken apart at the position of the scan.
  lemma RoundLeaves(front: seq<Chunk>, c: Chunk, rest: seq<Chunk>, target: bytes)
    ensures Leaves(front + ([c] + rest), |front|, target)
      == Leaves(if Matches(c, target) then front + rest else front + [c] + rest, |front| + 1, target)
  {
    LeavesFrom(front, [c] + rest, target);
    assert ([c] + rest)[1..] == rest;
    if !Matches(c, target) {
      LeavesFrom(front + [c], rest, target);
    } else if rest == [] {
      assert front + rest == front;
    } else {
      LeavesFrom(front + [rest[0]], rest[1..], target);
      assert front + [rest[0]] + rest[1..] == front + rest;
      assert ([c] + rest)[2..] == rest[1..];
    }
  }

  lemma ScanStep(before: seq<Chunk>, cs: seq<Chunk>, i: nat, target: bytes)
    requires i < |cs| && Scanned(before, cs, i, target)
    ensures Scanned(before, if Matches(cs[i], target) then cs[..i] + cs[i + 1..] else cs, i + 1, target)
  {
    RoundLeaves(cs[..i], cs[i], cs[i + 1..], target);
    assert cs[..i] + ([cs[i]] + cs[i + 1..]) == cs;
    assert cs[..i] + [cs[i]] + cs[i + 1..] == cs;
  }

  // One chunk at the cursor; a missing length byte makes it throw.
  method ParseChunk(br: BufferReader) returns (r: Option<Chunk>)
    modifies br
    ensures br.Agrees(r, ReadChunk(br.buf, old(br.pos)))
  {
    ghost var start := br.pos;
    var op :- br.ReadUIntLE(1);
    LittleEndianBound(br.buf[start..start + 1]);
    if op == 0 || op > OP_PUSHDATA4 {
      r := Some(Plain(op));
    } else {
      var len := op;
      if op >= OP_PUSHDATA1 {
        len :- br.ReadUIntLE(LengthBytes(op));
      }
      var buf := br.ReadRaw(len);
      r := Some(Data(op, buf, len));
    }
  }

  method ParseScript(b: bytes) returns (r: Option<seq<Chunk>>)
    ensures r == FromBuffer(b)
  {
    var br := new BufferReader(b);
    var chunks: seq<Chunk> := [];
    while br.pos < |b|
      invariant br.buf == b
      invariant FromBuffer(b) == Joined(chunks, ChunksFrom(b, br.pos))
      decreases |b| - br.pos
    {
      ReadChunkAdvances(b, br.pos);
      ghost var start := br.pos;
      var c :- ParseChunk(br);
      assert ChunksFrom(b, start) == Joined([c], ChunksFrom(b, br.pos));
      JoinedTwice(chunks, c, ChunksFrom(b, br.pos));
      chunks := chunks + [c];
    }
    r := Some(chunks);
  }

  ghost function Joined(chunks: seq<Chunk>, rest: Option<seq<Chunk>>): (r: Option<seq<Chunk>>)
    ensures chunks == [] ==> r == rest
    ensures rest == Some([]) ==> r == Some(chunks)
  {
    match rest
    case None => None
    case Some(cs) => assert [] + cs == cs && chunks + [] == chunks; Some(chunks + cs)
  }

  lemma JoinedTwice(chunks: seq<Chunk>, c: Chunk, rest: Option<seq<Chunk>>)
    ensures Joined(chunks, Joined([c], rest)) == Joined(chunks + [c], rest)
  {
    if rest.Some? {
      assert chunks + ([c] + rest.value) == (chunks + [c]) + rest.value;
    }
  }
}
