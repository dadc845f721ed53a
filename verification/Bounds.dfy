// What every run of the script machine keeps: element sizes, operation count, stack growth, dead branches.

module Bounds {
  import opened Bytes
  import opened ScriptNum
  import opened Script
  import opened Opcode
  import opened Crypto
  import opened Machine

  ghost predicate AllSmall(s: seq<bytes>)
  {
    forall i :: 0 <= i < |s| ==> |s[i]| <= MAX_ELEMENT
  }

  ghost predicate Small(d: Memory) { AllSmall(d.stack) && AllSmall(d.alt) }

  function Total(d: Memory): nat { |d.stack| + |d.alt| }

  const MANY := 0x1000_0000

  // The effect of one opcode: elements stay small, at most three more of them, at most twenty operations.
  ghost predicate Bounded(e: Effect, d: Memory)
  {
    e.Done? ==> Small(e.data) && Total(e.data) <= Total(d) + 3 && e.cost <= 20
  }

  // ----- arithmetic -----

  lemma OperandBound(b: bytes, minimal: bool, size: nat)
    requires FromScriptNum(b, minimal, size).Some?
    ensures 2 * Abs(FromScriptNum(b, minimal, size).value) < Pow256(size)
  {
    if b != [] {
      DecodeBound(b);
      PowMonotone(|b|, size);
    }
  }

  lemma {:induction false} PowMonotone(a: nat, b: nat)
    requires a <= b
    ensures Pow256(a) <= Pow256(b)
    decreases b
  {
    if a < b { PowMonotone(a, b - 1); }
  }

  // Operands of four bytes give results of at most five.
  lemma UnaryResultIsShort(op: byte, b: bytes, env: Env)
    requires IsUnary(op) && Num(b, env).Some?
    ensures |Encode(UnaryResult(op, Num(b, env).value))| <= 5
  {
    OperandBound(b, env.flags.minimalData, 4);
    assert Pow256(5) == 256 * Pow256(4);
    EncodeLength(UnaryResult(op, Num(b, env).value), 5);
  }

  lemma BinaryResultIsShort(op: byte, x: bytes, y: bytes, env: Env)
    requires IsBinary(op) && Num(x, env).Some? && Num(y, env).Some?
    ensures |Encode(BinaryResult(op, Num(x, env).value, Num(y, env).value))| <= 5
  {
    OperandBound(x, env.flags.minimalData, 4);
    OperandBound(y, env.flags.minimalData, 4);
    assert Pow256(5) == 256 * Pow256(4);
    EncodeLength(BinaryResult(op, Num(x, env).value, Num(y, env).value), 5);
  }

  lemma SizeIsShort(n: nat)
    requires n < MANY
    ensures |Encode(n)| <= 4
  {
    assert Pow256(4) == 0x1_0000_0000 by { assert Pow256(3) == 256 * Pow256(2); }
    EncodeLength(n, 4);
  }

  // ----- one opcode -----

  lemma ReplaceSmall(d: Memory, n: nat, xs: seq<bytes>)
    requires n <= |d.stack| && Small(d) && AllSmall(xs)
    ensures Small(d.(stack := Replace(d.stack, n, xs)))
  {
  }

  lemma OutcomeBounded(d: Memory, n: nat, ok: bool, verify: bool, cost: nat)
    requires 1 <= n <= |d.stack| && Small(d) && cost <= 20
    ensures Bounded(Outcome(d, n, ok, verify, cost), d)
  {
    ReplaceSmall(d, n, [Bool(ok)]);
    ReplaceSmall(d, n, []);
  }

  lemma RearrangedBounded(op: byte, d: Memory)
    requires Rearrangement(op).Some? && Small(d) && |d.stack| >= Rearrangement(op).value.0
    ensures RearrangementOk(op, d)
  {
    RearrangementInRange(op);
    var (arity, outs) := Rearrangement(op).value;
    var s' := Rearranged(d.stack, arity, outs);
    forall i | 0 <= i < |s'| ensures |s'[i]| <= MAX_ELEMENT {
      if i >= |d.stack| - arity {
        assert s'[i] == d.stack[|d.stack| - arity + outs[i - (|d.stack| - arity)]];
      }
    }
  }

  ghost predicate RearrangementOk(op: byte, d: Memory)
    requires Rearrangement(op).Some? && |d.stack| >= Rearrangement(op).value.0
  {
    RearrangementInRange(op);
    var (arity, outs) := Rearrangement(op).value;
    var s' := Rearranged(d.stack, arity, outs);
    AllSmall(s') && |s'| <= |d.stack| + 3
  }

  lemma PickBounded(op: byte, env: Env, d: Memory)
    requires Small(d)
    ensures Bounded(PickOp(op, env, d), d)
  {
  }

  lemma ArithmeticBounded(op: byte, env: Env, d: Memory)
    requires Small(d)
    ensures IsUnary(op) ==> Bounded(UnaryOp(op, env, d), d)
    ensures IsBinary(op) ==> Bounded(BinaryOp(op, env, d), d)
    ensures Bounded(WithinOp(env, d), d)
  {
    if IsUnary(op) && UnaryOp(op, env, d).Done? {
      UnaryResultIsShort(op, Top(d.stack, 1), env);
      ReplaceSmall(d, 1, [Encode(UnaryResult(op, Num(Top(d.stack, 1), env).value))]);
    }
    if IsBinary(op) && BinaryOp(op, env, d).Done? {
      var a, b := Num(Top(d.stack, 2), env).value, Num(Top(d.stack, 1), env).value;
      BinaryResultIsShort(op, Top(d.stack, 2), Top(d.stack, 1), env);
      ReplaceSmall(d, 2, [Encode(BinaryResult(op, a, b))]);
      OutcomeBounded(d, 2, a == b, true, 0);
    }
    if WithinOp(env, d).Done? {
      var x, min, max := Num(Top(d.stack, 3), env).value, Num(Top(d.stack, 2), env).value, Num(Top(d.stack, 1), env).value;
      OutcomeBounded(d, 3, min <= x < max, false, 0);
    }
  }

  lemma CheckSigBounded(trial: SigTrial, script: seq<Chunk>, verify: bool, d: Memory)
    requires Small(d)
    ensures Bounded(CheckSigOp(trial, script, verify, d), d)
  {
    if |d.stack| >= 2 {
      OutcomeBounded(d, 2, true, verify, 0);
      OutcomeBounded(d, 2, false, verify, 0);
    }
  }

  lemma MultisigBounded(env: Env, trial: SigTrial, script: seq<Chunk>, verify: bool, d: Memory)
    requires Small(d)
    ensures Bounded(MultisigOp(env, trial, script, verify, d), d)
  {
    if MultisigCounts(env, d.stack).Some? {
      var (n, m) := MultisigCounts(env, d.stack).value;
      OutcomeBounded(d, n + m + 3, true, verify, n);
      OutcomeBounded(d, n + m + 3, false, verify, n);
    }
  }

  lemma HashBounded(op: byte, b: bytes, crypto: Crypto)
    requires Sound(crypto) && IsHash(op)
    ensures |HashOf(op, b, crypto)| <= 32
  {
  }

  lemma MoveBounded(op: byte, d: Memory)
    requires Small(d)
    ensures |d.stack| >= 1 ==> Small(d.(stack := Replace(d.stack, 1, []), alt := d.alt + [Top(d.stack, 1)]))
    ensures |d.alt| >= 1 ==> Small(d.(stack := d.stack + [Top(d.alt, 1)], alt := Replace(d.alt, 1, [])))
    ensures |d.stack| >= 1 ==> Small(d.(stack := d.stack + [Top(d.stack, 1)]))
  {
  }

  lemma PushBounded(d: Memory, b: bytes)
    requires Small(d) && |b| <= MAX_ELEMENT
    ensures Bounded(Push(d, b), d)
  {
  }

  lemma ExecOpBounded(env: Env, script: seq<Chunk>, pc: nat, op: byte, d: Memory)
    requires Sound(env.crypto) && Small(d) && |d.stack| < MANY
    ensures Bounded(ExecOp(env, script, pc, op, d), d)
  {
    var s := d.stack;
    if op == OP_1NEGATE || OP_1 <= op <= OP_16 {
      SmallPushIsShort(op);
      PushBounded(d, Encode(op as int - (OP_1 as int - 1)));
    } else if op == OP_VERIFY {
      if |s| >= 1 { OutcomeBounded(d, 1, CastToBool(Top(s, 1)), true, 0); }
    } else if op == OP_TOALTSTACK || op == OP_FROMALTSTACK || op == OP_IFDUP {
      MoveBounded(op, d);
    } else if Rearrangement(op).Some? {
      if |s| >= Rearrangement(op).value.0 { RearrangedBounded(op, d); }
    } else if op == OP_DEPTH {
      SizeIsShort(|s|);
      PushBounded(d, Encode(|s|));
    } else if op == OP_PICK || op == OP_ROLL {
      PickBounded(op, env, d);
    } else if op == OP_SIZE {
      if |s| >= 1 {
        SizeIsShort(|Top(s, 1)|);
        PushBounded(d, Encode(|Top(s, 1)|));
      }
    } else if op == OP_EQUAL || op == OP_EQUALVERIFY {
      if |s| >= 2 { OutcomeBounded(d, 2, Top(s, 2) == Top(s, 1), op == OP_EQUALVERIFY, 0); }
    } else if IsUnary(op) || IsBinary(op) || op == OP_WITHIN {
      ArithmeticBounded(op, env, d);
    } else if IsHash(op) {
      if |s| >= 1 {
        HashBounded(op, Top(s, 1), env.crypto);
        ReplaceSmall(d, 1, [HashOf(op, Top(s, 1), env.crypto)]);
      }
    } else if op == OP_CHECKSIG || op == OP_CHECKSIGVERIFY {
      CheckSigBounded(Trials(env), script, op == OP_CHECKSIGVERIFY, d);
    } else if op == OP_CHECKMULTISIG || op == OP_CHECKMULTISIGVERIFY {
      MultisigBounded(env, Trials(env), script, op == OP_CHECKMULTISIGVERIFY, d);
    }
  }

  lemma SmallPushIsShort(op: byte)
    requires op == OP_1NEGATE || OP_1 <= op <= OP_16
    ensures |Encode(op as int - (OP_1 as int - 1))| <= 1
  {
    EncodeLength(op as int - (OP_1 as int - 1), 1);
  }

  lemma ExecChunkBounded(env: Env, script: seq<Chunk>, pc: nat, c: Chunk, d: Memory)
    requires Sound(env.crypto) && Small(d) && |d.stack| < MANY && !Oversized(c)
    ensures Bounded(ExecChunk(env, script, pc, c, d), d)
  {
    if c.opcode <= OP_PUSHDATA4 {
      PushBounded(d, if c.Data? then c.buf else FALSE);
    } else {
      ExecOpBounded(env, script, pc, c.opcode, d);
    }
  }

  // ----- one step -----

  // What holds of every state of a run that started with `base` elements on its stacks.
  ghost predicate Kept(st: State, base: nat)
  {
    st.nOpCount <= MAX_OPS && Small(st.data) && Total(st.data) <= base + 3 * st.pc
  }

  // One step further: the bounds kept, at most three elements more, and in a dead branch the same stacks.
  ghost predicate Advanced(st: State, next: State, base: nat)
  {
    && Kept(next, base)
    && next.pc == st.pc + 1
    && Total(next.data) <= Total(st.data) + 3
    && (!Executing(st.vfExec) ==> next.data == st.data)
  }

  lemma ChunkKeeps(exec: ChunkExec, c: Chunk, st: State, base: nat)
    requires Kept(st, base)
    requires !Oversized(c) ==> Bounded(exec(st.pc + 1, c, st.data), st.data)
    ensures StepChunk(exec, c, st).Some? ==> Advanced(st, StepChunk(exec, c, st).value, base)
  {
  }

  lemma StepKeeps(env: Env, script: seq<Chunk>, st: State, base: nat)
    requires Sound(env.crypto) && st.pc < |script| && base + 3 * |script| < MANY && Kept(st, base)
    ensures Step(env, script, st).Some? ==> Advanced(st, Step(env, script, st).value, base)
  {
    var c := script[st.pc];
    if !Oversized(c) {
      ExecChunkBounded(env, script, st.pc + 1, c, st.data);
    }
    ChunkKeeps(Opcodes(env, script), c, st, base);
  }

  // ----- runs -----

  // The state after k successful steps.
  function After(env: Env, script: seq<Chunk>, st: State, k: nat): Option<State>
  {
    if k == 0 then Some(st)
    else
      var before :- After(env, script, st, k - 1);
      if before.pc < |script| then Step(env, script, before) else None
  }

  // Every state a run passes through keeps the bounds.
  lemma {:induction false} EveryStateKept(env: Env, script: seq<Chunk>, st: State, base: nat, k: nat)
    requires Sound(env.crypto) && base + 3 * |script| < MANY && Kept(st, base)
    ensures After(env, script, st, k).Some? ==> Kept(After(env, script, st, k).value, base)
    ensures After(env, script, st, k).Some? ==> After(env, script, st, k).value.pc == st.pc + k
  {
    if k > 0 {
      EveryStateKept(env, script, st, base, k - 1);
      var before := After(env, script, st, k - 1);
      if before.Some? && before.value.pc < |script| {
        StepKeeps(env, script, before.value, base);
      }
    }
  }

  function RunFrom(env: Env, script: seq<Chunk>, st: Option<State>): Option<State>
  {
    if st.None? then None else Run(env, script, st.value)
  }

  // A whole run is as many steps as there are chunks left.
  lemma {:induction false} RunIsAfter(env: Env, script: seq<Chunk>, st: State, k: nat)
    requires st.pc + k <= |script|
    ensures Run(env, script, st) == RunFrom(env, script, After(env, script, st, k))
    ensures After(env, script, st, k).Some? ==> After(env, script, st, k).value.pc == st.pc + k
  {
    if k > 0 {
      RunIsAfter(env, script, st, k - 1);
      var before := After(env, script, st, k - 1);
      if before.Some? {
        RunUnfolds(env, script, before.value);
        assert After(env, script, st, k) == Step(env, script, before.value);
      }
    }
  }

  lemma {:induction false} ChunksAreBytes(cs: seq<Chunk>)
    ensures |cs| <= |ToBuffer(cs)|
  {
    if cs != [] {
      ChunksAreBytes(cs[1..]);
    }
  }

  // An evaluation that succeeds ends outside every conditional and within all limits; what it leaves is small enough for
  // the next to start.
  lemma EvaluationKeepsBounds(env: Env, script: seq<Chunk>, stack: seq<bytes>)
    requires Sound(env.crypto) && AllSmall(stack) && |stack| <= MAX_STACK
    requires Evaluate(env, script, stack).Some?
    ensures AllSmall(Evaluate(env, script, stack).value) && |Evaluate(env, script, stack).value| <= MAX_STACK
    ensures var end := Run(env, script, Start(stack));
      && end.Some? && end.value.vfExec == [] && Total(end.value.data) <= MAX_STACK && end.value.nOpCount <= MAX_OPS
      && end.value.data.stack == Evaluate(env, script, stack).value
  {
    ChunksAreBytes(script);
    RunIsAfter(env, script, Start(stack), |script|);
    EveryStateKept(env, script, Start(stack), |stack|, |script|);
  }
}
