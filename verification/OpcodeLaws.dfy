// Laws between opcodes: what each does, said in terms of others, of the numbers its operands stand for, or of what it
// undoes (script/interpreter.js).

module OpcodeLaws {
  import opened Bytes
  import opened ScriptNum
  import opened Script
  import opened Opcode
  import opened Crypto
  import opened Machine

  // What opcodes do in an environment, at some place of a script.
  type Performer = (byte, Memory) -> Effect

  ghost predicate Performs(exec: Performer, env: Env, script: seq<Chunk>, pc: nat)
  {
    forall op: byte, d: Memory {:trigger ExecChunk(env, script, pc, Plain(op), d)} ::
      exec(op, d) == ExecChunk(env, script, pc, Plain(op), d)
  }

  // One opcode after the other; what they add to the operation count adds up.
  function Series(exec: Performer, ops: seq<byte>, d: Memory): Effect
  {
    if ops == [] then Done(d, 0)
    else
      var first := exec(ops[0], d);
      if first.Fail? then Fail else Plus(first.cost, Series(exec, ops[1..], first.data))
  }

  function Plus(cost: nat, e: Effect): Effect
  {
    if e.Fail? then Fail else Done(e.data, cost + e.cost)
  }

  lemma SeriesOne(exec: Performer, a: byte, d: Memory)
    ensures Series(exec, [a], d) == exec(a, d)
  {
    assert [a][1..] == [];
  }

  lemma SeriesTwo(exec: Performer, a: byte, b: byte, d: Memory)
    ensures Series(exec, [a, b], d) == if exec(a, d).Fail? then Fail else Plus(exec(a, d).cost, exec(b, exec(a, d).data))
  {
    assert [a, b][1..] == [b];
    if exec(a, d).Done? { SeriesOne(exec, b, exec(a, d).data); }
  }

  lemma {:induction false} SeriesAppend(exec: Performer, xs: seq<byte>, ys: seq<byte>, d: Memory)
    ensures var first := Series(exec, xs, d);
      Series(exec, xs + ys, d) == if first.Fail? then Fail else Plus(first.cost, Series(exec, ys, first.data))
  {
    if xs == [] {
      assert xs + ys == ys;
    } else {
      assert (xs + ys)[1..] == xs[1..] + ys;
      if exec(xs[0], d).Done? { SeriesAppend(exec, xs[1..], ys, exec(xs[0], d).data); }
    }
  }

  // ----- truth -----

  lemma {:induction false} ValueIsZero(b: bytes)
    ensures LittleEndian(b) == 0 <==> forall i :: 0 <= i < |b| ==> b[i] == 0
  {
    if b != [] {
      ValueIsZero(b[1..]);
      assert forall i :: 0 < i < |b| ==> b[i] == b[1..][i - 1];
    }
  }

  // An element is true exactly if the number it stands for is not zero.
  lemma TruthIsNonZero(b: bytes)
    ensures CastToBool(b) <==> Decode(b) != 0
  {
    if b != [] {
      var n := |b| - 1;
      var m := b[..n] + [Last(b) % 128];
      ValueIsZero(m);
      assert forall i :: 0 <= i < n ==> m[i] == b[i];
      assert m[n] == b[n] % 128;
    }
  }

  // ----- numbers -----

  lemma Readable(env: Env, n: int)
    requires 2 * Abs(n) < Pow256(4)
    ensures Num(Encode(n), env) == Some(n)
  {
    EncodeLength(n, 4);
    MinimalDecodingIsBijective(Encode(n), 4, n);
    DecodeEncode(n);
  }

  lemma FourBytes()
    ensures Pow256(4) == 0x1_0000_0000
  {
    assert Pow256(2) == 0x10000 && Pow256(3) == 256 * Pow256(2);
  }

  // The opcode of a small number.
  function Number(n: nat): byte
    requires n <= 16
  {
    if n == 0 then OP_0 else OP_1 + n - 1
  }

  lemma NumberPushes(env: Env, script: seq<Chunk>, pc: nat, exec: Performer, n: nat, d: Memory)
    requires Performs(exec, env, script, pc) && n <= 16
    ensures exec(Number(n), d) == Push(d, Encode(n))
  {
    assert exec(Number(n), d) == ExecChunk(env, script, pc, Plain(Number(n)), d);
  }

  // ----- rearrangements are made of PICK, ROLL and DROP -----

  lemma RearrangementIs(env: Env, script: seq<Chunk>, pc: nat, exec: Performer, op: byte, d: Memory)
    requires Performs(exec, env, script, pc) && Rearrangement(op).Some?
    ensures exec(op, d) == RearrangeOp(op, d)
  {
    assert exec(op, d) == ExecChunk(env, script, pc, Plain(op), d);
  }

  // A number and PICK or ROLL: the element that far below the top is copied or moved.
  function Picked(n: nat, d: Memory): Effect
  {
    if n >= |d.stack| then Fail else Push(d, Top(d.stack, n + 1))
  }

  function Rolled(n: nat, d: Memory): Effect
  {
    if n >= |d.stack| then Fail
    else
      var at := |d.stack| - 1 - n;
      Done(d.(stack := d.stack[..at] + d.stack[at + 1..] + [d.stack[at]]), 0)
  }

  lemma PickNumber(env: Env, script: seq<Chunk>, pc: nat, exec: Performer, n: nat, d: Memory)
    requires Performs(exec, env, script, pc) && n <= 16
    ensures Series(exec, [Number(n), OP_PICK], d) == Picked(n, d)
    ensures Series(exec, [Number(n), OP_ROLL], d) == Rolled(n, d)
  {
    var m := Push(d, Encode(n)).data;
    NumberPushes(env, script, pc, exec, n, d);
    SeriesTwo(exec, Number(n), OP_PICK, d);
    SeriesTwo(exec, Number(n), OP_ROLL, d);
    FourBytes();
    Readable(env, n);
    PickIs(env, script, pc, exec, m);
    PickedAfter(env, n, d, m);
  }

  lemma PickIs(env: Env, script: seq<Chunk>, pc: nat, exec: Performer, d: Memory)
    requires Performs(exec, env, script, pc)
    ensures exec(OP_PICK, d) == PickOp(OP_PICK, env, d) && exec(OP_ROLL, d) == PickOp(OP_ROLL, env, d)
  {
    assert exec(OP_PICK, d) == ExecChunk(env, script, pc, Plain(OP_PICK), d);
    assert exec(OP_ROLL, d) == ExecChunk(env, script, pc, Plain(OP_ROLL), d);
  }

  lemma PickedAfter(env: Env, n: nat, d: Memory, m: Memory)
    requires m == d.(stack := d.stack + [Encode(n)]) && Num(Encode(n), env) == Some(n)
    ensures PickOp(OP_PICK, env, m) == Picked(n, d) && PickOp(OP_ROLL, env, m) == Rolled(n, d)
  {
    assert Top(m.stack, 1) == Encode(n);
    assert m.stack[..|m.stack| - 1] == d.stack;
  }

  // Everything stays, and copies of elements that took part follow.
  lemma Copies(s: seq<bytes>, arity: nat, outs: seq<nat>, more: seq<bytes>)
    requires arity <= |s| && |outs| == arity + |more| && (forall i :: 0 <= i < |outs| ==> outs[i] < arity)
    requires forall i :: 0 <= i < arity ==> outs[i] == i
    requires forall i :: 0 <= i < |more| ==> more[i] == s[|s| - arity + outs[arity + i]]
    ensures Rearranged(s, arity, outs) == s + more
  {
    var r := Rearranged(s, arity, outs);
    forall i | 0 <= i < |r| ensures r[i] == (s + more)[i] {
      if i >= |s| - arity {
        assert r[i] == s[|s| - arity + outs[i - (|s| - arity)]];
        if i >= |s| { assert more[i - |s|] == s[|s| - arity + outs[arity + (i - |s|)]]; }
      }
    }
  }

  lemma DupLaw(env: Env, script: seq<Chunk>, pc: nat, exec: Performer, d: Memory)
    requires Performs(exec, env, script, pc)
    ensures exec(OP_DUP, d) == Series(exec, [Number(0), OP_PICK], d)
  {
    PickNumber(env, script, pc, exec, 0, d);
    RearrangementIs(env, script, pc, exec, OP_DUP, d);
    if |d.stack| >= 1 { Copies(d.stack, 1, [0, 0], [Top(d.stack, 1)]); }
  }

  lemma OverLaw(env: Env, script: seq<Chunk>, pc: nat, exec: Performer, d: Memory)
    requires Performs(exec, env, script, pc)
    ensures exec(OP_OVER, d) == Series(exec, [Number(1), OP_PICK], d)
  {
    PickNumber(env, script, pc, exec, 1, d);
    RearrangementIs(env, script, pc, exec, OP_OVER, d);
    if |d.stack| >= 2 { Copies(d.stack, 2, [0, 1, 0], [Top(d.stack, 2)]); }
  }

  lemma TwoDupLaw(env: Env, script: seq<Chunk>, pc: nat, exec: Performer, d: Memory)
    requires Performs(exec, env, script, pc)
    ensures exec(OP_2DUP, d) == Series(exec, [OP_OVER, OP_OVER], d)
  {
    RearrangementIs(env, script, pc, exec, OP_OVER, d);
    RearrangementIs(env, script, pc, exec, OP_2DUP, d);
    SeriesTwo(exec, OP_OVER, OP_OVER, d);
    if |d.stack| >= 2 {
      var m := d.(stack := Rearranged(d.stack, 2, [0, 1, 0]));
      RearrangementIs(env, script, pc, exec, OP_OVER, m);
      OverTwice(d.stack);
    }
  }

  lemma OverTwice(s: seq<bytes>)
    requires |s| >= 2
    ensures Rearranged(Rearranged(s, 2, [0, 1, 0]), 2, [0, 1, 0]) == Rearranged(s, 2, [0, 1, 0, 1])
  {
    var x, y := Top(s, 2), Top(s, 1);
    Copies(s, 2, [0, 1, 0], [x]);
    Copies(s + [x], 2, [0, 1, 0], [y]);
    Copies(s, 2, [0, 1, 0, 1], [x, y]);
    assert s + [x] + [y] == s + [x, y];
  }

  // Picking twice from the same depth copies two elements, three times copies three.
  lemma PickAgain(env: Env, script: seq<Chunk>, pc: nat, exec: Performer, n: nat, d: Memory)
    requires Performs(exec, env, script, pc) && n <= 16
    ensures Series(exec, [Number(n), OP_PICK] + [Number(n), OP_PICK], d) ==
      if n >= |d.stack| then Fail else Picked(n, Picked(n, d).data)
  {
    SeriesAppend(exec, [Number(n), OP_PICK], [Number(n), OP_PICK], d);
    PickNumber(env, script, pc, exec, n, d);
    if n < |d.stack| { PickNumber(env, script, pc, exec, n, Picked(n, d).data); }
  }

  lemma RollAgain(env: Env, script: seq<Chunk>, pc: nat, exec: Performer, n: nat, d: Memory)
    requires Performs(exec, env, script, pc) && n <= 16
    ensures Series(exec, [Number(n), OP_ROLL] + [Number(n), OP_ROLL], d) ==
      if n >= |d.stack| then Fail else Rolled(n, Rolled(n, d).data)
  {
    SeriesAppend(exec, [Number(n), OP_ROLL], [Number(n), OP_ROLL], d);
    PickNumber(env, script, pc, exec, n, d);
    if n < |d.stack| { PickNumber(env, script, pc, exec, n, Rolled(n, d).data); }
  }

  lemma TwoOverLaw(env: Env, script: seq<Chunk>, pc: nat, exec: Performer, d: Memory)
    requires Performs(exec, env, script, pc)
    ensures exec(OP_2OVER, d) == Series(exec, [Number(3), OP_PICK] + [Number(3), OP_PICK], d)
  {
    PickAgain(env, script, pc, exec, 3, d);
    RearrangementIs(env, script, pc, exec, OP_2OVER, d);
    if |d.stack| >= 4 {
      var x, y := Top(d.stack, 4), Top(d.stack, 3);
      Copies(d.stack, 4, [0, 1, 2, 3, 0, 1], [x, y]);
      assert d.stack + [x] + [y] == d.stack + [x, y];
    }
  }

  lemma ThreeDupLaw(env: Env, script: seq<Chunk>, pc: nat, exec: Performer, d: Memory)
    requires Performs(exec, env, script, pc)
    ensures exec(OP_3DUP, d) == Series(exec, ([Number(2), OP_PICK] + [Number(2), OP_PICK]) + [Number(2), OP_PICK], d)
  {
    PickAgain(env, script, pc, exec, 2, d);
    SeriesAppend(exec, [Number(2), OP_PICK] + [Number(2), OP_PICK], [Number(2), OP_PICK], d);
    RearrangementIs(env, script, pc, exec, OP_3DUP, d);
    if |d.stack| >= 3 {
      PickedThrice(d);
      PickNumber(env, script, pc, exec, 2, Picked(2, Picked(2, d).data).data);
    }
  }

  lemma PickedThrice(d: Memory)
    requires |d.stack| >= 3
    ensures Picked(2, Picked(2, Picked(2, d).data).data) == Done(d.(stack := Rearranged(d.stack, 3, [0, 1, 2, 0, 1, 2])), 0)
  {
    var x, y, z := Top(d.stack, 3), Top(d.stack, 2), Top(d.stack, 1);
    Copies(d.stack, 3, [0, 1, 2, 0, 1, 2], [x, y, z]);
    assert d.stack + [x] + [y] + [z] == d.stack + [x, y, z];
  }

  lemma SwapLaw(env: Env, script: seq<Chunk>, pc: nat, exec: Performer, d: Memory)
    requires Performs(exec, env, script, pc)
    ensures exec(OP_SWAP, d) == Series(exec, [Number(1), OP_ROLL], d)
  {
    PickNumber(env, script, pc, exec, 1, d);
    RearrangementIs(env, script, pc, exec, OP_SWAP, d);
    if |d.stack| >= 2 { assert Rearranged(d.stack, 2, [1, 0]) == Rolled(1, d).data.stack; }
  }

  lemma RotLaw(env: Env, script: seq<Chunk>, pc: nat, exec: Performer, d: Memory)
    requires Performs(exec, env, script, pc)
    ensures exec(OP_ROT, d) == Series(exec, [Number(2), OP_ROLL], d)
  {
    PickNumber(env, script, pc, exec, 2, d);
    RearrangementIs(env, script, pc, exec, OP_ROT, d);
    if |d.stack| >= 3 { assert Rearranged(d.stack, 3, [1, 2, 0]) == Rolled(2, d).data.stack; }
  }

  lemma TwoSwapLaw(env: Env, script: seq<Chunk>, pc: nat, exec: Performer, d: Memory)
    requires Performs(exec, env, script, pc)
    ensures exec(OP_2SWAP, d) == Series(exec, [Number(3), OP_ROLL] + [Number(3), OP_ROLL], d)
  {
    RollAgain(env, script, pc, exec, 3, d);
    RearrangementIs(env, script, pc, exec, OP_2SWAP, d);
    if |d.stack| >= 4 { RolledTwice(d, 4, [2, 3, 0, 1]); }
  }

  lemma TwoRotLaw(env: Env, script: seq<Chunk>, pc: nat, exec: Performer, d: Memory)
    requires Performs(exec, env, script, pc)
    ensures exec(OP_2ROT, d) == Series(exec, [Number(5), OP_ROLL] + [Number(5), OP_ROLL], d)
  {
    RollAgain(env, script, pc, exec, 5, d);
    RearrangementIs(env, script, pc, exec, OP_2ROT, d);
    if |d.stack| >= 6 { RolledTwice(d, 6, [2, 3, 4, 5, 0, 1]); }
  }

  lemma RolledTwice(d: Memory, depth: nat, outs: seq<nat>)
    requires 2 <= depth <= |d.stack| && |outs| == depth
    requires forall i :: 0 <= i < depth ==> outs[i] == if i < depth - 2 then i + 2 else i - (depth - 2)
    ensures Rolled(depth - 1, Rolled(depth - 1, d).data).data.stack == Rearranged(d.stack, depth, outs)
  {
    PairMoves(d.stack, depth, outs);
    MovedTwice(d.stack, |d.stack| - depth);
  }

  lemma MovedTwice(s: seq<bytes>, k: nat)
    requires k + 2 <= |s|
    ensures var once := s[..k] + s[k + 1..] + [s[k]];
      once[..k] + once[k + 1..] + [once[k]] == s[..k] + [] + s[k + 2..] + [s[k..k + 2][0]] + [s[k..k + 2][1]]
  {
    var once := s[..k] + s[k + 1..] + [s[k]];
    assert once[..k] == s[..k] && once[k] == s[k + 1] && once[k + 1..] == s[k + 2..] + [s[k]];
  }

  lemma DropLaws(env: Env, script: seq<Chunk>, pc: nat, exec: Performer, n: nat, d: Memory)
    requires Performs(exec, env, script, pc) && n <= 16
    ensures Series(exec, [Number(n), OP_DROP], d) == Series(exec, [], d)
    ensures exec(OP_2DROP, d) == Series(exec, [OP_DROP, OP_DROP], d)
    ensures exec(OP_NIP, d) == Series(exec, [OP_SWAP, OP_DROP], d)
    ensures exec(OP_TUCK, d) == Series(exec, [OP_SWAP, OP_OVER], d)
  {
    DropNumber(env, script, pc, exec, n, d);
    SeriesTwo(exec, OP_DROP, OP_DROP, d);
    SeriesTwo(exec, OP_SWAP, OP_DROP, d);
    SeriesTwo(exec, OP_SWAP, OP_OVER, d);
    forall op | op in {OP_2DROP, OP_NIP, OP_TUCK, OP_DROP, OP_SWAP} ensures exec(op, d) == RearrangeOp(op, d) {
      RearrangementIs(env, script, pc, exec, op, d);
    }
    if |d.stack| >= 1 {
      var dropped := d.(stack := Rearranged(d.stack, 1, []));
      RearrangementIs(env, script, pc, exec, OP_DROP, dropped);
      if |d.stack| >= 2 {
        var swapped := d.(stack := Rearranged(d.stack, 2, [1, 0]));
        RearrangementIs(env, script, pc, exec, OP_DROP, swapped);
        RearrangementIs(env, script, pc, exec, OP_OVER, swapped);
        TopTwo(d.stack);
      }
    }
  }

  lemma TopTwo(s: seq<bytes>)
    requires |s| >= 2
    ensures Rearranged(Rearranged(s, 1, []), 1, []) == Rearranged(s, 2, [])
    ensures var swapped := Rearranged(s, 2, [1, 0]);
      Rearranged(swapped, 1, []) == Rearranged(s, 2, [1]) && Rearranged(swapped, 2, [0, 1, 0]) == Rearranged(s, 2, [1, 0, 1])
  {
  }

  lemma DropNumber(env: Env, script: seq<Chunk>, pc: nat, exec: Performer, n: nat, d: Memory)
    requires Performs(exec, env, script, pc) && n <= 16
    ensures Series(exec, [Number(n), OP_DROP], d) == Done(d, 0)
  {
    var m := Push(d, Encode(n)).data;
    NumberPushes(env, script, pc, exec, n, d);
    SeriesTwo(exec, Number(n), OP_DROP, d);
    RearrangementIs(env, script, pc, exec, OP_DROP, m);
    assert Rearranged(m.stack, 1, []) == d.stack;
  }

  // Every rearrangement in terms of PICK, ROLL and DROP, failures included.
  lemma RearrangementLaws(env: Env, script: seq<Chunk>, pc: nat, exec: Performer, d: Memory)
    requires Performs(exec, env, script, pc)
    ensures exec(OP_DUP, d) == Series(exec, [Number(0), OP_PICK], d)
    ensures exec(OP_OVER, d) == Series(exec, [Number(1), OP_PICK], d)
    ensures exec(OP_2DUP, d) == Series(exec, [OP_OVER, OP_OVER], d)
    ensures exec(OP_2OVER, d) == Series(exec, [Number(3), OP_PICK] + [Number(3), OP_PICK], d)
    ensures exec(OP_3DUP, d) == Series(exec, ([Number(2), OP_PICK] + [Number(2), OP_PICK]) + [Number(2), OP_PICK], d)
    ensures exec(OP_SWAP, d) == Series(exec, [Number(1), OP_ROLL], d)
    ensures exec(OP_ROT, d) == Series(exec, [Number(2), OP_ROLL], d)
    ensures exec(OP_2SWAP, d) == Series(exec, [Number(3), OP_ROLL] + [Number(3), OP_ROLL], d)
    ensures exec(OP_2ROT, d) == Series(exec, [Number(5), OP_ROLL] + [Number(5), OP_ROLL], d)
    ensures exec(OP_2DROP, d) == Series(exec, [OP_DROP, OP_DROP], d)
    ensures exec(OP_NIP, d) == Series(exec, [OP_SWAP, OP_DROP], d)
    ensures exec(OP_TUCK, d) == Series(exec, [OP_SWAP, OP_OVER], d)
  {
    DupLaw(env, script, pc, exec, d);
    OverLaw(env, script, pc, exec, d);
    TwoDupLaw(env, script, pc, exec, d);
    TwoOverLaw(env, script, pc, exec, d);
    ThreeDupLaw(env, script, pc, exec, d);
    SwapLaw(env, script, pc, exec, d);
    RotLaw(env, script, pc, exec, d);
    TwoSwapLaw(env, script, pc, exec, d);
    TwoRotLaw(env, script, pc, exec, d);
    DropLaws(env, script, pc, exec, 0, d);
  }

  // ----- the VERIFY forms -----

  lemma VerifyIs(env: Env, script: seq<Chunk>, pc: nat, exec: Performer, d: Memory)
    requires Performs(exec, env, script, pc)
    ensures exec(OP_VERIFY, d) ==
      if d.stack == [] || Decode(Top(d.stack, 1)) == 0 then Fail else Done(d.(stack := Replace(d.stack, 1, [])), 0)
  {
    assert exec(OP_VERIFY, d) == ExecChunk(env, script, pc, Plain(OP_VERIFY), d);
    if d.stack != [] { TruthIsNonZero(Top(d.stack, 1)); }
  }

  // A plain form and its VERIFY form that replace the same elements by the same answer.
  lemma AnswerThenVerify(env: Env, script: seq<Chunk>, pc: nat, exec: Performer, plain: byte, d: Memory,
                         n: nat, ok: bool, cost: nat)
    requires Performs(exec, env, script, pc) && n <= |d.stack| && exec(plain, d) == Outcome(d, n, ok, false, cost)
    ensures Series(exec, [plain, OP_VERIFY], d) == Outcome(d, n, ok, true, cost)
  {
    var m := Outcome(d, n, ok, false, cost).data;
    SeriesTwo(exec, plain, OP_VERIFY, d);
    VerifyIs(env, script, pc, exec, m);
    AnswerIsNumber(ok);
    assert Top(m.stack, 1) == Bool(ok) && Replace(m.stack, 1, []) == Replace(d.stack, n, []);
  }

  lemma AnswerIsNumber(ok: bool)
    ensures Decode(Bool(ok)) == BoolNum(ok) && Encode(BoolNum(ok)) == Bool(ok)
  {
    assert Magnitude(1) == [1] && Encode(1) == [1] && Encode(0) == [];
    DecodeEncode(BoolNum(ok));
  }

  lemma EqualVerifyLaw(env: Env, script: seq<Chunk>, pc: nat, exec: Performer, d: Memory)
    requires Performs(exec, env, script, pc)
    ensures exec(OP_EQUALVERIFY, d) == Series(exec, [OP_EQUAL, OP_VERIFY], d)
  {
    assert exec(OP_EQUAL, d) == ExecChunk(env, script, pc, Plain(OP_EQUAL), d);
    assert exec(OP_EQUALVERIFY, d) == ExecChunk(env, script, pc, Plain(OP_EQUALVERIFY), d);
    if |d.stack| >= 2 {
      AnswerThenVerify(env, script, pc, exec, OP_EQUAL, d, 2, Top(d.stack, 2) == Top(d.stack, 1), 0);
    } else {
      SeriesTwo(exec, OP_EQUAL, OP_VERIFY, d);
    }
  }

  lemma BinaryIs(env: Env, script: seq<Chunk>, pc: nat, exec: Performer, op: byte, d: Memory)
    requires Performs(exec, env, script, pc) && IsBinary(op)
    ensures exec(op, d) == BinaryOp(op, env, d)
  {
    assert Rearrangement(op).None? && !IsUnary(op);
    assert exec(op, d) == ExecChunk(env, script, pc, Plain(op), d);
  }

  lemma NumEqualVerifyLaw(env: Env, script: seq<Chunk>, pc: nat, exec: Performer, d: Memory)
    requires Performs(exec, env, script, pc)
    ensures exec(OP_NUMEQUALVERIFY, d) == Series(exec, [OP_NUMEQUAL, OP_VERIFY], d)
  {
    BinaryIs(env, script, pc, exec, OP_NUMEQUAL, d);
    BinaryIs(env, script, pc, exec, OP_NUMEQUALVERIFY, d);
    if |d.stack| >= 2 && Num(Top(d.stack, 2), env).Some? && Num(Top(d.stack, 1), env).Some? {
      var same := Num(Top(d.stack, 2), env) == Num(Top(d.stack, 1), env);
      AnswerIsNumber(same);
      AnswerThenVerify(env, script, pc, exec, OP_NUMEQUAL, d, 2, same, 0);
    } else {
      SeriesTwo(exec, OP_NUMEQUAL, OP_VERIFY, d);
    }
  }

  lemma CheckSigIs(env: Env, script: seq<Chunk>, pc: nat, exec: Performer, trial: SigTrial, d: Memory)
    requires Performs(exec, env, script, pc) && trial == Trials(env)
    ensures exec(OP_CHECKSIG, d) == CheckSigOp(trial, script, false, d)
    ensures exec(OP_CHECKSIGVERIFY, d) == CheckSigOp(trial, script, true, d)
  {
    assert exec(OP_CHECKSIG, d) == ExecChunk(env, script, pc, Plain(OP_CHECKSIG), d);
    assert exec(OP_CHECKSIGVERIFY, d) == ExecChunk(env, script, pc, Plain(OP_CHECKSIGVERIFY), d);
  }

  lemma CheckMultisigIs(env: Env, script: seq<Chunk>, pc: nat, exec: Performer, trial: SigTrial, d: Memory)
    requires Performs(exec, env, script, pc) && trial == Trials(env)
    ensures exec(OP_CHECKMULTISIG, d) == MultisigOp(env, trial, script, false, d)
    ensures exec(OP_CHECKMULTISIGVERIFY, d) == MultisigOp(env, trial, script, true, d)
  {
    assert exec(OP_CHECKMULTISIG, d) == ExecChunk(env, script, pc, Plain(OP_CHECKMULTISIG), d);
    assert exec(OP_CHECKMULTISIGVERIFY, d) == ExecChunk(env, script, pc, Plain(OP_CHECKMULTISIGVERIFY), d);
  }

  lemma CheckSigVerifyLaw(env: Env, script: seq<Chunk>, pc: nat, exec: Performer, d: Memory)
    requires Performs(exec, env, script, pc)
    ensures exec(OP_CHECKSIGVERIFY, d) == Series(exec, [OP_CHECKSIG, OP_VERIFY], d)
  {
    var trial := Trials(env);
    CheckSigIs(env, script, pc, exec, trial, d);
    SeriesTwo(exec, OP_CHECKSIG, OP_VERIFY, d);
    if |d.stack| >= 2 {
      var t := trial(DropSignature(SignedPart(script, d.sep), Top(d.stack, 2)), Top(d.stack, 2), Top(d.stack, 1));
      if t != Bad { AnswerThenVerify(env, script, pc, exec, OP_CHECKSIG, d, 2, t.Hit?, 0); }
    }
  }

  lemma CheckMultisigVerifyLaw(env: Env, script: seq<Chunk>, pc: nat, exec: Performer, d: Memory)
    requires Performs(exec, env, script, pc)
    ensures exec(OP_CHECKMULTISIGVERIFY, d) == Series(exec, [OP_CHECKMULTISIG, OP_VERIFY], d)
  {
    var trial := Trials(env);
    CheckMultisigIs(env, script, pc, exec, trial, d);
    SeriesTwo(exec, OP_CHECKMULTISIG, OP_VERIFY, d);
    if MultisigCounts(env, d.stack).Some? {
      var (n, m) := MultisigCounts(env, d.stack).value;
      var matched := MatchOnStack(trial, SignedPart(script, d.sep), d.stack, n, m);
      if MatchedOp(env, matched, n, m, false, d).Done? {
        AnswerThenVerify(env, script, pc, exec, OP_CHECKMULTISIG, d, n + m + 3, matched.all, n);
      }
    }
  }

  // Every VERIFY form is its plain form followed by VERIFY, failures and costs included.
  lemma VerifyFormLaws(env: Env, script: seq<Chunk>, pc: nat, exec: Performer, d: Memory)
    requires Performs(exec, env, script, pc)
    ensures exec(OP_EQUALVERIFY, d) == Series(exec, [OP_EQUAL, OP_VERIFY], d)
    ensures exec(OP_NUMEQUALVERIFY, d) == Series(exec, [OP_NUMEQUAL, OP_VERIFY], d)
    ensures exec(OP_CHECKSIGVERIFY, d) == Series(exec, [OP_CHECKSIG, OP_VERIFY], d)
    ensures exec(OP_CHECKMULTISIGVERIFY, d) == Series(exec, [OP_CHECKMULTISIG, OP_VERIFY], d)
  {
    EqualVerifyLaw(env, script, pc, exec, d);
    NumEqualVerifyLaw(env, script, pc, exec, d);
    CheckSigVerifyLaw(env, script, pc, exec, d);
    CheckMultisigVerifyLaw(env, script, pc, exec, d);
  }

  // ----- numbers -----

  lemma UnaryIs(env: Env, script: seq<Chunk>, pc: nat, exec: Performer, op: byte, d: Memory)
    requires Performs(exec, env, script, pc) && IsUnary(op)
    ensures exec(op, d) == UnaryOp(op, env, d)
  {
    assert Rearrangement(op).None?;
    assert exec(op, d) == ExecChunk(env, script, pc, Plain(op), d);
  }

  // A unary opcode that is a number and a binary one.
  lemma NumberThenBinary(env: Env, script: seq<Chunk>, pc: nat, exec: Performer, op: byte, n: nat, bin: byte, d: Memory)
    requires Performs(exec, env, script, pc) && IsUnary(op) && IsBinary(bin) && bin != OP_NUMEQUALVERIFY && n <= 16
    requires forall x :: UnaryResult(op, x) == BinaryResult(bin, x, n)
    ensures exec(op, d) == Series(exec, [Number(n), bin], d)
  {
    var m := Push(d, Encode(n)).data;
    NumberPushes(env, script, pc, exec, n, d);
    SeriesTwo(exec, Number(n), bin, d);
    UnaryIs(env, script, pc, exec, op, d);
    BinaryIs(env, script, pc, exec, bin, m);
    FourBytes();
    Readable(env, n);
    assert Top(m.stack, 1) == Encode(n);
    if |d.stack| >= 1 {
      assert Top(m.stack, 2) == Top(d.stack, 1);
      if Num(Top(d.stack, 1), env).Some? {
        var x := Num(Top(d.stack, 1), env).value;
        assert UnaryResult(op, x) == BinaryResult(bin, x, n);
        assert Replace(m.stack, 2, [Encode(BinaryResult(bin, x, n))]) == Replace(d.stack, 1, [Encode(UnaryResult(op, x))]);
      }
    }
  }

  lemma SmallStepLaws(env: Env, script: seq<Chunk>, pc: nat, exec: Performer, d: Memory)
    requires Performs(exec, env, script, pc)
    ensures exec(OP_1ADD, d) == Series(exec, [Number(1), OP_ADD], d)
    ensures exec(OP_1SUB, d) == Series(exec, [Number(1), OP_SUB], d)
    ensures exec(OP_NOT, d) == Series(exec, [Number(0), OP_NUMEQUAL], d)
    ensures exec(OP_0NOTEQUAL, d) == Series(exec, [Number(0), OP_NUMNOTEQUAL], d)
  {
    NumberThenBinary(env, script, pc, exec, OP_1ADD, 1, OP_ADD, d);
    NumberThenBinary(env, script, pc, exec, OP_1SUB, 1, OP_SUB, d);
    NumberThenBinary(env, script, pc, exec, OP_NOT, 0, OP_NUMEQUAL, d);
    NumberThenBinary(env, script, pc, exec, OP_0NOTEQUAL, 0, OP_NUMNOTEQUAL, d);
  }

  // Changing the sign is subtracting from zero, dropping it is taking the greater of the two.
  lemma SignLaws(x: int)
    ensures UnaryResult(OP_NEGATE, x) == BinaryResult(OP_SUB, 0, x)
    ensures UnaryResult(OP_ABS, x) == BinaryResult(OP_MAX, x, UnaryResult(OP_NEGATE, x))
  {
  }

  // The first operand lies below the bounds, and the upper bound is not within.
  lemma WithinLaw(env: Env, d: Memory, x: int, min: int, max: int)
    requires |d.stack| >= 3 && Num(Top(d.stack, 3), env) == Some(x)
    requires Num(Top(d.stack, 2), env) == Some(min) && Num(Top(d.stack, 1), env) == Some(max)
    ensures var inside := BinaryResult(OP_BOOLAND, BinaryResult(OP_GREATERTHANOREQUAL, x, min), BinaryResult(OP_LESSTHAN, x, max));
      WithinOp(env, d) == Done(d.(stack := Replace(d.stack, 3, [Encode(inside)])), 0)
  {
    AnswerIsNumber(min <= x < max);
  }

  // Each number opcode pushes one more than the one before, and 1NEGATE the negative of one.
  lemma NumberLaws(env: Env, script: seq<Chunk>, pc: nat, exec: Performer, n: nat, d: Memory)
    requires Performs(exec, env, script, pc) && n < 16
    ensures exec(Number(n + 1), d) == Series(exec, [Number(n), OP_1ADD], d)
    ensures exec(OP_1NEGATE, d) == Series(exec, [Number(1), OP_NEGATE], d)
  {
    NumberThenUnary(env, script, pc, exec, n, OP_1ADD, d);
    NumberThenUnary(env, script, pc, exec, 1, OP_NEGATE, d);
    NumberPushes(env, script, pc, exec, n + 1, d);
    assert exec(OP_1NEGATE, d) == ExecChunk(env, script, pc, Plain(OP_1NEGATE), d);
  }

  lemma NumberThenUnary(env: Env, script: seq<Chunk>, pc: nat, exec: Performer, n: nat, op: byte, d: Memory)
    requires Performs(exec, env, script, pc) && n <= 16 && IsUnary(op)
    ensures Series(exec, [Number(n), op], d) == Push(d, Encode(UnaryResult(op, n)))
  {
    var m := Push(d, Encode(n)).data;
    NumberPushes(env, script, pc, exec, n, d);
    SeriesTwo(exec, Number(n), op, d);
    UnaryIs(env, script, pc, exec, op, m);
    FourBytes();
    Readable(env, n);
    assert Top(m.stack, 1) == Encode(n);
    assert Replace(m.stack, 1, [Encode(UnaryResult(op, n))]) == d.stack + [Encode(UnaryResult(op, n))];
  }

  // ----- hashes -----

  lemma HashIs(env: Env, script: seq<Chunk>, pc: nat, exec: Performer, op: byte, d: Memory)
    requires Performs(exec, env, script, pc) && IsHash(op)
    ensures exec(op, d) == HashOp(op, env.crypto, d)
  {
    assert exec(op, d) == ExecChunk(env, script, pc, Plain(op), d);
  }

  lemma HashLaws(env: Env, script: seq<Chunk>, pc: nat, exec: Performer, d: Memory)
    requires Performs(exec, env, script, pc)
    ensures exec(OP_HASH160, d) == Series(exec, [OP_SHA256, OP_RIPEMD160], d)
    ensures exec(OP_HASH256, d) == Series(exec, [OP_SHA256, OP_SHA256], d)
  {
    SeriesTwo(exec, OP_SHA256, OP_RIPEMD160, d);
    SeriesTwo(exec, OP_SHA256, OP_SHA256, d);
    HashIs(env, script, pc, exec, OP_HASH160, d);
    HashIs(env, script, pc, exec, OP_HASH256, d);
    HashIs(env, script, pc, exec, OP_SHA256, d);
    if d.stack != [] {
      var m := HashOp(OP_SHA256, env.crypto, d).data;
      HashIs(env, script, pc, exec, OP_RIPEMD160, m);
      HashIs(env, script, pc, exec, OP_SHA256, m);
      HashedTwice(d.stack, env.crypto);
    }
  }

  lemma HashedTwice(s: seq<bytes>, crypto: Crypto)
    requires s != []
    ensures var once := Replace(s, 1, [crypto.sha256(Top(s, 1))]);
      && Replace(once, 1, [crypto.ripemd160(Top(once, 1))]) == Replace(s, 1, [crypto.sha256ripemd160(Top(s, 1))])
      && Replace(once, 1, [crypto.sha256(Top(once, 1))]) == Replace(s, 1, [crypto.sha256sha256(Top(s, 1))])
  {
  }

  // ----- moves, sizes and opcodes that do nothing -----

  lemma ThereAndBackLaw(env: Env, script: seq<Chunk>, pc: nat, exec: Performer, d: Memory)
    requires Performs(exec, env, script, pc)
    ensures Series(exec, [OP_TOALTSTACK, OP_FROMALTSTACK], d) == if d.stack == [] then Fail else Done(d, 0)
  {
    SeriesTwo(exec, OP_TOALTSTACK, OP_FROMALTSTACK, d);
    ToAltIs(env, script, pc, exec, d);
    if d.stack != [] {
      var m := Memory(Replace(d.stack, 1, []), d.alt + [Top(d.stack, 1)], d.sep);
      ToAltIs(env, script, pc, exec, m);
      assert Replace(m.alt, 1, []) == d.alt && m.stack + [Top(m.alt, 1)] == d.stack;
    }
  }

  lemma BackAndThereLaw(env: Env, script: seq<Chunk>, pc: nat, exec: Performer, d: Memory)
    requires Performs(exec, env, script, pc)
    ensures Series(exec, [OP_FROMALTSTACK, OP_TOALTSTACK], d) == if d.alt == [] then Fail else Done(d, 0)
  {
    SeriesTwo(exec, OP_FROMALTSTACK, OP_TOALTSTACK, d);
    ToAltIs(env, script, pc, exec, d);
    if d.alt != [] {
      var m := Memory(d.stack + [Top(d.alt, 1)], Replace(d.alt, 1, []), d.sep);
      ToAltIs(env, script, pc, exec, m);
      assert Replace(m.stack, 1, []) == d.stack && m.alt + [Top(m.stack, 1)] == d.alt;
    }
  }

  // Moving to the alternate stack leaves what dropping leaves.
  lemma ToAltDrops(env: Env, script: seq<Chunk>, pc: nat, exec: Performer, d: Memory)
    requires Performs(exec, env, script, pc)
    ensures var moved, dropped := exec(OP_TOALTSTACK, d), exec(OP_DROP, d);
      moved.Done? == dropped.Done? && (moved.Done? ==> moved.data.(alt := d.alt) == dropped.data)
  {
    RearrangementIs(env, script, pc, exec, OP_DROP, d);
    ToAltIs(env, script, pc, exec, d);
    if d.stack != [] { assert Rearranged(d.stack, 1, []) == Replace(d.stack, 1, []); }
  }

  lemma ToAltIs(env: Env, script: seq<Chunk>, pc: nat, exec: Performer, d: Memory)
    requires Performs(exec, env, script, pc)
    ensures exec(OP_TOALTSTACK, d) ==
      if d.stack == [] then Fail else Done(Memory(Replace(d.stack, 1, []), d.alt + [Top(d.stack, 1)], d.sep), 0)
    ensures exec(OP_FROMALTSTACK, d) ==
      if d.alt == [] then Fail else Done(Memory(d.stack + [Top(d.alt, 1)], Replace(d.alt, 1, []), d.sep), 0)
  {
    assert exec(OP_TOALTSTACK, d) == ExecChunk(env, script, pc, Plain(OP_TOALTSTACK), d);
    assert exec(OP_FROMALTSTACK, d) == ExecChunk(env, script, pc, Plain(OP_FROMALTSTACK), d);
  }

  // DEPTH and SIZE push a number that is read as what they measure.
  lemma MeasureLaws(env: Env, script: seq<Chunk>, pc: nat, exec: Performer, d: Memory)
    requires Performs(exec, env, script, pc) && |d.stack| < 0x8000_0000
    requires d.stack != [] ==> |Top(d.stack, 1)| < 0x8000_0000
    ensures exists x :: exec(OP_DEPTH, d) == Push(d, x) && Num(x, env) == Some(|d.stack|)
    ensures if d.stack == [] then exec(OP_SIZE, d) == Fail
      else exists x :: exec(OP_SIZE, d) == Push(d, x) && Num(x, env) == Some(|Top(d.stack, 1)|)
  {
    FourBytes();
    Readable(env, |d.stack|);
    assert exec(OP_DEPTH, d) == ExecChunk(env, script, pc, Plain(OP_DEPTH), d) == Push(d, Encode(|d.stack|));
    assert exec(OP_SIZE, d) == ExecChunk(env, script, pc, Plain(OP_SIZE), d);
    if d.stack != [] {
      Readable(env, |Top(d.stack, 1)|);
      assert exec(OP_SIZE, d) == Push(d, Encode(|Top(d.stack, 1)|));
    }
  }

  // IFDUP is DUP where the top is not zero; the reserved opcodes are NOP2 as it is without its flag, and NOP is nothing.
  lemma SometimesLaws(env: Env, script: seq<Chunk>, pc: nat, exec: Performer, reserved: byte, d: Memory)
    requires Performs(exec, env, script, pc) && (reserved == OP_NOP1 || OP_NOP3 <= reserved <= OP_NOP10)
    ensures exec(OP_IFDUP, d) == if d.stack != [] && Decode(Top(d.stack, 1)) == 0 then Done(d, 0) else exec(OP_DUP, d)
    ensures exec(reserved, d) == LockTimeOp(env.(flags := env.flags.(checkLockTime := false)), d)
    ensures exec(OP_NOP, d) == Series(exec, [], d)
  {
    assert exec(OP_IFDUP, d) == ExecChunk(env, script, pc, Plain(OP_IFDUP), d);
    assert exec(reserved, d) == ExecChunk(env, script, pc, Plain(reserved), d);
    assert exec(OP_NOP, d) == ExecChunk(env, script, pc, Plain(OP_NOP), d);
    RearrangementIs(env, script, pc, exec, OP_DUP, d);
    if d.stack != [] {
      TruthIsNonZero(Top(d.stack, 1));
      Copies(d.stack, 1, [0, 0], [Top(d.stack, 1)]);
    }
  }

  // ----- what is signed -----

  // Behind a separator only what follows it is signed, whatever stands before.
  lemma SeparatorCuts(env: Env, before: seq<Chunk>, rest: seq<Chunk>, d: Memory)
    ensures var script := before + ([Plain(OP_CODESEPARATOR)] + rest);
      var e := ExecChunk(env, script, |before| + 1, script[|before|], d);
      e.Done? && e.data == d.(sep := e.data.sep) && SignedPart(script, e.data.sep) == rest
  {
    var script := before + ([Plain(OP_CODESEPARATOR)] + rest);
    assert script[|before|] == Plain(OP_CODESEPARATOR) && script[|before| + 1..] == rest;
  }

  predicate Apart(cs: seq<Chunk>, p: Chunk -> bool)
  {
    |cs| >= 2 ==> !(p(cs[0]) && p(cs[1])) && Apart(cs[1..], p)
  }

  function Others(cs: seq<Chunk>, p: Chunk -> bool): seq<Chunk>
  {
    if cs == [] then [] else (if p(cs[0]) then [] else [cs[0]]) + Others(cs[1..], p)
  }

  // A push of one of the signatures.
  predicate SigPush(c: Chunk, sigs: seq<bytes>)
  {
    exists s :: s in sigs && |s| < MAX_PUSH && ChunkBytes(c) == ChunkBytes(PushOf(s))
  }

  ghost function SigPushes(sigs: seq<bytes>): Chunk -> bool { c => SigPush(c, sigs) }

  // No signature signs itself or another: where no two pushes of signatures are adjacent, every one of them is taken out
  // of the part they sign, and nothing else.
  lemma {:induction false} SignaturesAreDropped(cs: seq<Chunk>, sigs: seq<bytes>)
    requires Apart(cs, SigPushes(sigs)) && forall s :: s in sigs ==> |s| < MAX_PUSH
    ensures DropSignatures(cs, sigs) == Others(cs, SigPushes(sigs))
    decreases |sigs|
  {
    if sigs == [] {
      NoOthers(cs, SigPushes(sigs));
    } else {
      var target, all, more := ChunkBytes(PushOf(sigs[0])), SigPushes(sigs), SigPushes(sigs[1..]);
      var first := (c: Chunk) => Matches(c, target);
      forall c ensures all(c) == (first(c) || more(c)) { FirstOrLater(c, sigs); }
      DropsTarget(cs, sigs[0]);
      DeletesApart(cs, all, first, target);
      RestApart(cs, all, first, more);
      OthersOfOthers(cs, all, first, more);
      SignaturesAreDropped(Others(cs, first), sigs[1..]);
    }
  }

  lemma FirstOrLater(c: Chunk, sigs: seq<bytes>)
    requires sigs != [] && |sigs[0]| < MAX_PUSH
    ensures SigPush(c, sigs) <==> Matches(c, ChunkBytes(PushOf(sigs[0]))) || SigPush(c, sigs[1..])
  {
    if SigPush(c, sigs) {
      var s :| s in sigs && |s| < MAX_PUSH && ChunkBytes(c) == ChunkBytes(PushOf(s));
      assert s == sigs[0] || s in sigs[1..];
    }
  }

  lemma DropsTarget(cs: seq<Chunk>, sig: bytes)
    requires |sig| < MAX_PUSH
    ensures DropSignature(cs, sig) == Deleted(cs, ChunkBytes(PushOf(sig)))
  {
    var push := PushOf(sig);
    assert [push][1..] == [] && ToBuffer([push]) == ChunkBytes(push) + ToBuffer([]);
  }

  lemma {:induction false} NoOthers(cs: seq<Chunk>, p: Chunk -> bool)
    requires forall c :: !p(c)
    ensures Others(cs, p) == cs
  {
    if cs != [] { NoOthers(cs[1..], p); }
  }

  lemma {:induction false} DeletesApart(cs: seq<Chunk>, all: Chunk -> bool, first: Chunk -> bool, target: bytes)
    requires Apart(cs, all) && forall c :: first(c) == Matches(c, target) && (first(c) ==> all(c))
    ensures Deleted(cs, target) == Others(cs, first)
  {
    if cs != [] {
      DeletesApart(cs[1..], all, first, target);
      if |cs| > 1 && first(cs[0]) {
        assert !first(cs[1]);
        DeletesApart(cs[2..], all, first, target);
        assert cs[1..][1..] == cs[2..];
      }
    }
  }

  lemma {:induction false} RestApart(cs: seq<Chunk>, all: Chunk -> bool, first: Chunk -> bool, more: Chunk -> bool)
    requires Apart(cs, all) && forall c :: all(c) == (first(c) || more(c))
    ensures Apart(Others(cs, first), more)
  {
    if cs != [] {
      RestApart(cs[1..], all, first, more);
      var rest := Others(cs[1..], first);
      assert ([cs[0]] + rest)[1..] == rest && [] + rest == rest;
      if |cs| > 1 && !first(cs[1]) {
        assert rest == [cs[1]] + Others(cs[1..][1..], first);
      }
    }
  }

  lemma {:induction false} OthersOfOthers(cs: seq<Chunk>, all: Chunk -> bool, first: Chunk -> bool, more: Chunk -> bool)
    requires forall c :: all(c) == (first(c) || more(c))
    ensures Others(Others(cs, first), more) == Others(cs, all)
  {
    if cs != [] {
      OthersOfOthers(cs[1..], all, first, more);
      var rest := Others(cs[1..], first);
      assert ([cs[0]] + rest)[1..] == rest && [] + rest == rest;
    }
  }
}
