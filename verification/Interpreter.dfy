// The script machine as the class that changes its stacks in place (script/interpreter.js).
// A method that answers false stands for `return false` and for an exception, which evaluate turns into false.

module Interpreters {
  import opened Bytes
  import opened ScriptNum
  import opened Script
  import opened Opcode
  import opened Machine
  import opened Transactions
  import Der

  method IsTrue(buf: bytes) returns (b: bool)
    ensures b == CastToBool(buf)
  {
    for i := 0 to |buf|
      invariant forall k :: 0 <= k < i ==> buf[k] == 0
    {
      if buf[i] != 0 {
        return !(i == |buf| - 1 && buf[i] == 0x80);
      }
    }
    return false;
  }

  method IsDisabled(op: byte) returns (b: bool)
    ensures b == Disabled(op)
  {
    return
      op == OP_CAT || op == OP_SUBSTR || op == OP_LEFT || op == OP_RIGHT || op == OP_INVERT || op == OP_AND || op == OP_OR ||
      op == OP_XOR || op == OP_2MUL || op == OP_2DIV || op == OP_MUL || op == OP_DIV || op == OP_MOD || op == OP_LSHIFT ||
      op == OP_RSHIFT;
  }

  class Interpreter {
    var script: seq<Chunk>
    var env: Env
    var stack: seq<bytes>
    var altstack: seq<bytes>
    var pc: nat
    var pbegincodehash: nat
    var nOpCount: nat
    var vfExec: seq<bool>

    constructor (e: Env)
      ensures env == e && View() == Start([])
    {
      script, env := [], e;
      stack, altstack, pc, pbegincodehash, nOpCount, vfExec := [], [], 0, 0, 0, [];
    }

    ghost function Data(): Memory reads this { Memory(stack, altstack, pbegincodehash) }

    ghost function View(): State reads this { State(Data(), pc, nOpCount, vfExec) }

    // What an opcode left behind is what its effect says; after a failure the machine stops.
    ghost predicate Did(e: Effect, ok: bool) reads this { ok == e.Done? && (ok ==> e.data == Data()) }

    // ----- the stack as an array -----

    method Push(b: bytes)
      modifies this`stack
      ensures stack == old(stack) + [b]
    {
      stack := stack + [b];
    }

    method Pop() returns (b: bytes)
      requires stack != []
      modifies this`stack
      ensures b == Top(old(stack), 1) && stack == Replace(old(stack), 1, [])
    {
      b := stack[|stack| - 1];
      stack := stack[..|stack| - 1];
    }

    method Splice(at: nat, count: nat, inserted: seq<bytes>) returns (removed: seq<bytes>)
      requires at + count <= |stack|
      modifies this`stack
      ensures removed == old(stack)[at..at + count]
      ensures stack == old(stack)[..at] + inserted + old(stack)[at + count..]
    {
      removed := stack[at..at + count];
      stack := stack[..at] + inserted + stack[at + count..];
    }

    // Leaves the answer of a test on the stack, or for a VERIFY form consumes it.
    method Answer(b: bool, verify: bool) returns (ok: bool)
      modifies this`stack
      ensures ok == (verify ==> b)
      ensures ok ==> stack == old(stack) + if verify then [] else [Bool(b)]
    {
      Push(Bool(b));
      if verify {
        if b { var _ := Pop(); } else { return false; }
      }
      return true;
    }

    // ----- encodings -----

    method CheckSignatureEncoding(buf: bytes) returns (ok: bool)
      ensures ok == SignatureEncodingOk(buf, env.flags)
    {
      if (env.flags.derSig || env.flags.lowS || env.flags.strictEnc) && !Der.IsTxDER(buf) {
        return false;
      } else if env.flags.lowS {
        var sig := Der.FromTxFormat(buf);
        if sig.None? || !HasLowS(sig.value) { return false; }
      } else if env.flags.strictEnc {
        var sig := Der.FromTxFormat(buf);
        if sig.None? || !HasDefinedHashType(sig.value) { return false; }
      }
      return true;
    }

    method CheckPubkeyEncoding(buf: bytes) returns (ok: bool)
      ensures ok == PubkeyEncodingOk(buf, env)
    {
      if env.flags.strictEnc && !env.crypto.keyIsValid(buf) { return false; }
      return true;
    }

    // ----- stack opcodes -----

    method CopyOp(op: byte) returns (ok: bool)
      requires op in {OP_2DUP, OP_3DUP, OP_2OVER, OP_DUP, OP_OVER}
      modifies this`stack
      ensures Did(RearrangeOp(op, old(Data())), ok)
    {
      var depth := if op == OP_DUP then 1 else if op == OP_2DUP || op == OP_OVER then 2
        else if op == OP_3DUP then 3 else 4;
      if |stack| < depth { return false; }
      var buf1 := stack[|stack| - depth];
      if op == OP_DUP || op == OP_OVER {
        Push(buf1);
      } else {
        var buf2 := stack[|stack| - depth + 1];
        if op == OP_3DUP {
          var buf3 := stack[|stack| - 1];
          Push(buf1);
          Push(buf2);
          Push(buf3);
        } else {
          Push(buf1);
          Push(buf2);
        }
      }
      assert stack == Rearranged(old(stack), depth, Rearrangement(op).value.1);
      return true;
    }

    method DropOp(op: byte) returns (ok: bool)
      requires op in {OP_2DROP, OP_DROP, OP_NIP, OP_TUCK}
      modifies this`stack
      ensures Did(RearrangeOp(op, old(Data())), ok)
    {
      if |stack| < if op == OP_DROP then 1 else 2 { return false; }
      if op == OP_NIP {
        var _ := Splice(|stack| - 2, 1, []);
      } else if op == OP_TUCK {
        var _ := Splice(|stack| - 2, 0, [stack[|stack| - 1]]);
      } else {
        var _ := Pop();
        if op == OP_2DROP {
          var _ := Pop();
        }
      }
      return true;
    }

    method PairOp(op: byte) returns (ok: bool)
      requires op == OP_2ROT || op == OP_2SWAP
      modifies this`stack
      ensures Did(RearrangeOp(op, old(Data())), ok)
    {
      var depth := if op == OP_2ROT then 6 else 4;
      if |stack| < depth { return false; }
      var spliced := Splice(|stack| - depth, 2, []);
      Push(spliced[0]);
      Push(spliced[1]);
      PairMoves(old(stack), depth, Rearrangement(op).value.1);
      return true;
    }

    method SwapOp(op: byte) returns (ok: bool)
      requires op == OP_ROT || op == OP_SWAP
      modifies this`stack
      ensures Did(RearrangeOp(op, old(Data())), ok)
    {
      if |stack| < if op == OP_ROT then 3 else 2 { return false; }
      var n := |stack|;
      if op == OP_ROT {
        var x1, x2, x3 := stack[n - 3], stack[n - 2], stack[n - 1];
        stack := stack[n - 3 := x2];
        stack := stack[n - 2 := x3];
        stack := stack[n - 1 := x1];
      } else {
        var x1, x2 := stack[n - 2], stack[n - 1];
        stack := stack[n - 2 := x2];
        stack := stack[n - 1 := x1];
      }
      return true;
    }

    method PickOrRoll(op: byte) returns (ok: bool)
      requires op == OP_PICK || op == OP_ROLL
      modifies this`stack
      ensures Did(PickOp(op, env, old(Data())), ok)
    {
      if |stack| < 2 { return false; }
      var bn := FromScriptNumBuffer(stack[|stack| - 1], env.flags.minimalData, 4);
      if bn.None? { return false; }
      ok := PickOrRollAt(op, bn.value);
    }

    method PickOrRollAt(op: byte, n: int) returns (ok: bool)
      requires |stack| >= 1
      modifies this`stack
      ensures Did(PickAt(op, n, old(Data())), ok)
    {
      var _ := Pop();
      if n < 0 || n >= |stack| { return false; }
      CopyFrom(|stack| - n - 1, op == OP_ROLL);
      return true;
    }

    method CopyFrom(at: nat, remove: bool)
      requires at < |stack|
      modifies this`stack
      ensures stack == (if remove then old(stack)[..at] + old(stack)[at + 1..] else old(stack)) + [old(stack)[at]]
    {
      var buf := stack[at];
      if remove {
        var _ := Splice(at, 1, []);
      }
      Push(buf);
    }

    // ----- numbers -----

    method UnaryNumber(op: byte) returns (ok: bool)
      requires IsUnary(op)
      modifies this`stack
      ensures Did(UnaryOp(op, env, old(Data())), ok)
    {
      if |stack| < 1 { return false; }
      var bn := FromScriptNumBuffer(stack[|stack| - 1], env.flags.minimalData, 4);
      if bn.None? { return false; }
      var n := bn.value;
      if op == OP_1ADD {
        n := n + 1;
      } else if op == OP_1SUB {
        n := n - 1;
      } else if op == OP_NEGATE {
        n := -n;
      } else if op == OP_ABS {
        if n < 0 { n := -n; }
      } else if op == OP_NOT {
        n := if n == 0 then 1 else 0;
      } else {
        n := if n != 0 then 1 else 0;
      }
      assert n == UnaryResult(op, bn.value);
      var _ := Pop();
      var out := ToScriptNumBuffer(n);
      Push(out);
      assert stack == Replace(old(stack), 1, [out]);
      return true;
    }

    method Operands() returns (r: Option<(int, int)>)
      requires |stack| >= 2
      ensures r == match (Num(Top(stack, 2), env), Num(Top(stack, 1), env))
        case (Some(a), Some(b)) => Some((a, b))
        case _ => None
    {
      var bn1 := FromScriptNumBuffer(stack[|stack| - 2], env.flags.minimalData, 4);
      if bn1.None? { return None; }
      var bn2 := FromScriptNumBuffer(stack[|stack| - 1], env.flags.minimalData, 4);
      if bn2.None? { return None; }
      return Some((bn1.value, bn2.value));
    }

    method BinaryNumber(op: byte) returns (ok: bool)
      requires IsBinary(op)
      modifies this`stack
      ensures Did(BinaryOp(op, env, old(Data())), ok)
    {
      if |stack| < 2 { return false; }
      var operands := Operands();
      if operands.None? { return false; }
      var (a, b) := operands.value;
      var n := BinaryOutcome(op, a, b);
      var _ := Pop();
      var _ := Pop();
      var out := ToScriptNumBuffer(n);
      Push(out);
      assert stack == Replace(old(stack), 2, [out]);
      if op == OP_NUMEQUALVERIFY {
        TruthOfNumber(a == b);
        var yes := IsTrue(stack[|stack| - 1]);
        if yes { var _ := Pop(); } else { return false; }
        assert stack == Replace(old(stack), 2, []);
      }
      return true;
    }

    method BinaryOutcome(op: byte, a: int, b: int) returns (n: int)
      requires IsBinary(op)
      ensures n == BinaryResult(op, a, b)
    {
      var yes;
      if op == OP_ADD {
        return a + b;
      } else if op == OP_SUB {
        return a - b;
      } else if op == OP_MIN {
        return if a < b then a else b;
      } else if op == OP_MAX {
        return if a > b then a else b;
      } else if op == OP_BOOLAND {
        yes := a != 0 && b != 0;
      } else if op == OP_BOOLOR {
        yes := a != 0 || b != 0;
      } else if op == OP_NUMEQUAL || op == OP_NUMEQUALVERIFY {
        yes := a == b;
      } else if op == OP_NUMNOTEQUAL {
        yes := a != b;
      } else if op == OP_LESSTHAN {
        yes := a < b;
      } else if op == OP_GREATERTHAN {
        yes := a > b;
      } else if op == OP_LESSTHANOREQUAL {
        yes := a <= b;
      } else {
        yes := a >= b;
      }
      return if yes then 1 else 0;
    }

    method Within() returns (ok: bool)
      modifies this`stack
      ensures Did(WithinOp(env, old(Data())), ok)
    {
      if |stack| < 3 { return false; }
      var bn1 := FromScriptNumBuffer(stack[|stack| - 3], env.flags.minimalData, 4);
      if bn1.None? { return false; }
      var operands := Operands();
      if operands.None? { return false; }
      var (min, max) := operands.value;
      var fValue := min <= bn1.value && bn1.value < max;
      var _ := Pop();
      var _ := Pop();
      var _ := Pop();
      Push(Bool(fValue));
      assert stack == Replace(old(stack), 3, [Bool(fValue)]);
      return true;
    }

    method CheckLockTime(n: int) returns (ok: bool)
      ensures ok == LockTimeSatisfied(env, n)
    {
      var lock := env.tx.nLockTime;
      if !((lock < LOCKTIME_THRESHOLD && n < LOCKTIME_THRESHOLD) || (lock >= LOCKTIME_THRESHOLD && n >= LOCKTIME_THRESHOLD)) {
        return false;
      }
      if n > lock { return false; }
      if env.nin >= |env.tx.inputs| { return false; }
      return env.tx.inputs[env.nin].sequence != MAX_UINT32;
    }

    method LockTime() returns (ok: bool)
      ensures Did(LockTimeOp(env, Data()), ok)
    {
      if !env.flags.checkLockTime {
        return !env.flags.discourageNops;
      }
      if |stack| < 1 { return false; }
      var n := FromScriptNumBuffer(stack[|stack| - 1], env.flags.minimalData, 5);
      if n.None? || n.value < 0 { return false; }
      ok := CheckLockTime(n.value);
    }

    // ----- signatures -----

    // The chunks a signature covers, without pushes of the signatures themselves.
    method Subscript(sigs: seq<bytes>) returns (sub: seq<Chunk>)
      ensures sub == DropSignatures(SignedPart(script, pbegincodehash), sigs)
    {
      var subscript := new ScriptBuilder(SignedPart(script, pbegincodehash));
      for k := 0 to |sigs|
        invariant fresh(subscript)
        invariant DropSignatures(SignedPart(script, pbegincodehash), sigs) == DropSignatures(subscript.chunks, sigs[k..])
      {
        assert sigs[k..] == [sigs[k]] + sigs[k + 1..];
        if |sigs[k]| < MAX_PUSH {
          var tmpScript := new ScriptBuilder([]);
          tmpScript.AddBuffer(sigs[k]);
          assert tmpScript.chunks == [PushOf(sigs[k])];
          subscript.FindAndDelete(ToBuffer(tmpScript.chunks));
        }
      }
      return subscript.chunks;
    }

    method TrySignature(sig: bytes, key: bytes, subscript: seq<Chunk>, ghost trial: SigTrial) returns (t: Trial)
      requires Judges(trial, env)
      ensures t == trial(subscript, sig, key)
    {
      assert trial(subscript, sig, key) == Try(env, subscript, sig, key);
      var sigEncoded := CheckSignatureEncoding(sig);
      if !sigEncoded { return Bad; }
      var keyEncoded := CheckPubkeyEncoding(key);
      if !keyEncoded { return Bad; }
      var parsed := Der.FromTxFormat(sig);
      if parsed.None? || !env.crypto.keyParses(key) { return Miss; }
      var s := parsed.value;
      return if Verifies(env.crypto, env.tx, s.r, s.s, s.hashType, key, env.nin, subscript) then Hit else Miss;
    }

    method CheckSig(verify: bool, ghost trial: SigTrial) returns (ok: bool)
      requires Judges(trial, env)
      modifies this`stack
      ensures Did(CheckSigOp(trial, script, verify, old(Data())), ok)
    {
      if |stack| < 2 { return false; }
      var bufSig, bufPubkey := stack[|stack| - 2], stack[|stack| - 1];
      OneDropped(SignedPart(script, pbegincodehash), bufSig);
      var subscript := Subscript([bufSig]);
      var t := TrySignature(bufSig, bufPubkey, subscript, trial);
      if t.Bad? { return false; }
      var _ := Pop();
      var _ := Pop();
      assert stack == Replace(old(stack), 2, []);
      ok := Answer(t.Hit?, verify);
    }

    // The loop of CHECKMULTISIG: isig and ikey move down the stack from their first elements.
    method MatchSignatures(firstSig: nat, sigsCount: nat, firstKey: nat, keysCount: nat, subscript: seq<Chunk>,
                           ghost trial: SigTrial)
      returns (r: Greedy)
      requires Judges(trial, env)
      requires 1 <= firstKey && sigsCount <= keysCount
      requires firstKey + keysCount < firstSig && firstSig + sigsCount <= |stack|
      ensures r == GreedyMatch(trial, subscript, Downwards(stack, firstSig, sigsCount), Downwards(stack, firstKey, keysCount))
    {
      var isig: nat, ikey: nat, nSigsCount: nat, nKeysCount: nat := firstSig, firstKey, sigsCount, keysCount;
      var fSuccess := true;
      ghost var sigs, keys := Downwards(stack, isig, nSigsCount), Downwards(stack, ikey, nKeysCount);
      ghost var goal := GreedyMatch(trial, subscript, sigs, keys);
      while fSuccess && nSigsCount > 0
        invariant 1 <= ikey && ikey + nKeysCount == firstKey + keysCount
        invariant firstSig <= isig && isig + nSigsCount == firstSig + sigsCount
        invariant if fSuccess then nSigsCount <= nKeysCount else goal == Matched(false)
        invariant fSuccess ==> sigs == Downwards(stack, isig, nSigsCount) && keys == Downwards(stack, ikey, nKeysCount)
        invariant fSuccess ==> goal == GreedyMatch(trial, subscript, sigs, keys)
        decreases nKeysCount
      {
        var bufSig, bufPubkey := stack[|stack| - isig], stack[|stack| - ikey];
        DownwardsTail(stack, isig, nSigsCount);
        DownwardsTail(stack, ikey, nKeysCount);
        var t := TrySignature(bufSig, bufPubkey, subscript, trial);
        if t.Bad? { return Abort; }
        if t.Hit? {
          isig := isig + 1;
          nSigsCount := nSigsCount - 1;
          sigs := sigs[1..];
        }
        ikey := ikey + 1;
        nKeysCount := nKeysCount - 1;
        keys := keys[1..];
        if nSigsCount > nKeysCount {
          fSuccess := false;
        }
      }
      return Matched(fSuccess);
    }

    method MatchArguments(nKeysCount: nat, nSigsCount: nat, ghost trial: SigTrial) returns (r: Greedy)
      requires nSigsCount <= nKeysCount && nKeysCount + nSigsCount + 3 <= |stack|
      requires Judges(trial, env)
      ensures r == MatchOnStack(trial, SignedPart(script, pbegincodehash), stack, nKeysCount, nSigsCount)
    {
      var isig, ikey := nKeysCount + 3, 2;
      var subscript := Subscript(Downwards(stack, isig, nSigsCount));
      r := MatchSignatures(isig, nSigsCount, ikey, nKeysCount, subscript, trial);
    }

    // Reads both counts, charging the keys to the operation counter on the way.
    method CountMultisig() returns (r: Option<(nat, nat)>)
      requires nOpCount <= MAX_OPS
      modifies this`nOpCount
      ensures r == var counts := MultisigCounts(env, stack);
        if counts.Some? && old(nOpCount) + counts.value.0 <= MAX_OPS then counts else None
      ensures r.Some? ==> nOpCount == old(nOpCount) + r.value.0
    {
      var i := 1;
      if |stack| < i { return None; }
      var keysRead := FromScriptNumBuffer(stack[|stack| - i], env.flags.minimalData, 4);
      if keysRead.None? || keysRead.value < 0 || keysRead.value > 20 { return None; }
      var nKeysCount: nat := keysRead.value;
      nOpCount := nOpCount + nKeysCount;
      if nOpCount > MAX_OPS { return None; }
      i := i + 1;
      i := i + nKeysCount;
      if |stack| < i { return None; }
      var sigsRead := FromScriptNumBuffer(stack[|stack| - i], env.flags.minimalData, 4);
      if sigsRead.None? || sigsRead.value < 0 || sigsRead.value > nKeysCount { return None; }
      i := i + 1;
      i := i + sigsRead.value;
      if |stack| < i { return None; }
      return Some((nKeysCount, sigsRead.value));
    }

    method FinishMultisig(matched: Greedy, nKeysCount: nat, nSigsCount: nat, verify: bool) returns (ok: bool)
      requires nKeysCount + nSigsCount + 3 <= |stack|
      modifies this`stack
      ensures Did(MatchedOp(env, matched, nKeysCount, nSigsCount, verify, old(Data())), ok)
    {
      if matched.Abort? { return false; }
      var i := nKeysCount + nSigsCount + 3;
      while i > 1
        invariant 1 <= i <= nKeysCount + nSigsCount + 3
        invariant stack == Replace(old(stack), nKeysCount + nSigsCount + 3 - i, [])
      {
        i := i - 1;
        var _ := Pop();
      }
      if env.flags.nullDummy && stack[|stack| - 1] != [] { return false; }
      var _ := Pop();
      assert stack == Replace(old(stack), nKeysCount + nSigsCount + 3, []);
      ok := Answer(matched.all, verify);
    }

    method CheckMultisig(verify: bool, ghost trial: SigTrial) returns (ok: bool)
      requires nOpCount <= MAX_OPS && Judges(trial, env)
      modifies this`stack, this`nOpCount
      ensures var e := MultisigOp(env, trial, script, verify, old(Data()));
        && ok == (e.Done? && old(nOpCount) + e.cost <= MAX_OPS)
        && (ok ==> e.data == Data() && nOpCount == old(nOpCount) + e.cost)
    {
      var counts := CountMultisig();
      if counts.None? { return false; }
      var (nKeysCount, nSigsCount) := counts.value;
      var matched := MatchArguments(nKeysCount, nSigsCount, trial);
      ok := FinishMultisig(matched, nKeysCount, nSigsCount, verify);
    }

    // ----- the remaining opcodes -----

    method SmallNumber(op: byte)
      modifies this`stack
      ensures stack == old(stack) + [Encode(op as int - (OP_1 as int - 1))]
    {
      var buf := ToScriptNumBuffer(op as int - (OP_1 as int - 1));
      Push(buf);
    }

    method AltStackOp(op: byte) returns (ok: bool)
      requires op == OP_TOALTSTACK || op == OP_FROMALTSTACK
      modifies this`stack, this`altstack
      ensures Did(ExecOp(env, script, pc, op, old(Data())), ok)
    {
      if op == OP_TOALTSTACK {
        if |stack| < 1 { return false; }
        var buf := Pop();
        altstack := altstack + [buf];
      } else {
        if |altstack| < 1 { return false; }
        var buf := altstack[|altstack| - 1];
        altstack := altstack[..|altstack| - 1];
        Push(buf);
      }
      return true;
    }

    method TruthOp(op: byte) returns (ok: bool)
      requires op == OP_VERIFY || op == OP_IFDUP
      modifies this`stack
      ensures Did(ExecOp(env, script, pc, op, old(Data())), ok)
    {
      if |stack| < 1 { return false; }
      var buf := stack[|stack| - 1];
      var fValue := IsTrue(buf);
      if op == OP_IFDUP {
        if fValue { Push(buf); }
      } else {
        if !fValue { return false; }
        var _ := Pop();
      }
      return true;
    }

    method MeasureOp(op: byte) returns (ok: bool)
      requires op == OP_DEPTH || op == OP_SIZE
      modifies this`stack
      ensures Did(ExecOp(env, script, pc, op, old(Data())), ok)
    {
      if op == OP_SIZE && |stack| < 1 { return false; }
      var buf := ToScriptNumBuffer(if op == OP_DEPTH then |stack| else |stack[|stack| - 1]|);
      Push(buf);
      return true;
    }

    method Equal(op: byte) returns (ok: bool)
      requires op == OP_EQUAL || op == OP_EQUALVERIFY
      modifies this`stack
      ensures Did(ExecOp(env, script, pc, op, old(Data())), ok)
    {
      if |stack| < 2 { return false; }
      var buf1, buf2 := stack[|stack| - 2], stack[|stack| - 1];
      var _ := Pop();
      var _ := Pop();
      assert stack == Replace(old(stack), 2, []);
      ok := Answer(buf1 == buf2, op == OP_EQUALVERIFY);
    }

    method HashOp(op: byte) returns (ok: bool)
      requires IsHash(op)
      modifies this`stack
      ensures Did(Machine.HashOp(op, env.crypto, old(Data())), ok)
    {
      if |stack| < 1 { return false; }
      var buf := stack[|stack| - 1];
      var bufHash;
      if op == OP_RIPEMD160 {
        bufHash := env.crypto.ripemd160(buf);
      } else if op == OP_SHA1 {
        bufHash := env.crypto.sha1(buf);
      } else if op == OP_SHA256 {
        bufHash := env.crypto.sha256(buf);
      } else if op == OP_HASH160 {
        bufHash := env.crypto.sha256ripemd160(buf);
      } else {
        bufHash := env.crypto.sha256sha256(buf);
      }
      var _ := Pop();
      Push(bufHash);
      return true;
    }

    // ----- one instruction -----

    // An opcode that leaves the alternate stack, the separator and the operation counter alone.
    method StackOnlyOp(op: byte) returns (ok: bool)
      requires StackOnly(op)
      modifies this`stack
      ensures Did(ExecOp(env, script, pc, op, old(Data())), ok)
    {
      if op == OP_1NEGATE || OP_1 <= op <= OP_16 {
        SmallNumber(op);
        return true;
      } else if op == OP_VERIFY || op == OP_IFDUP {
        ok := TruthOp(op);
      } else if op in {OP_2DUP, OP_3DUP, OP_2OVER, OP_DUP, OP_OVER} {
        ok := CopyOp(op);
      } else if op in {OP_2DROP, OP_DROP, OP_NIP, OP_TUCK} {
        ok := DropOp(op);
      } else if op == OP_2ROT || op == OP_2SWAP {
        ok := PairOp(op);
      } else if op == OP_ROT || op == OP_SWAP {
        ok := SwapOp(op);
      } else if op == OP_DEPTH || op == OP_SIZE {
        ok := MeasureOp(op);
      } else if op == OP_PICK || op == OP_ROLL {
        ok := PickOrRoll(op);
      } else if op == OP_EQUAL || op == OP_EQUALVERIFY {
        ok := Equal(op);
      } else if IsUnary(op) {
        ok := UnaryNumber(op);
      } else if IsBinary(op) {
        ok := BinaryNumber(op);
      } else if op == OP_WITHIN {
        ok := Within();
      } else {
        ok := HashOp(op);
      }
    }

    method ExecuteOp(op: byte) returns (ok: bool)
      requires nOpCount <= MAX_OPS
      modifies this`stack, this`altstack, this`pbegincodehash, this`nOpCount
      ensures Charged(ExecOp(env, script, pc, op, old(Data())), old(nOpCount), ok)
    {
      if StackOnly(op) {
        ok := StackOnlyOp(op);
        StackOnlyIsFree(env, script, pc, op, old(Data()));
      } else if op == OP_NOP {
        return true;
      } else if op == OP_CHECKLOCKTIMEVERIFY {
        ok := LockTime();
      } else if op == OP_NOP1 || OP_NOP3 <= op <= OP_NOP10 {
        return !env.flags.discourageNops;
      } else if op == OP_TOALTSTACK || op == OP_FROMALTSTACK {
        ok := AltStackOp(op);
      } else if op == OP_CODESEPARATOR {
        pbegincodehash := pc;
        return true;
      } else if op == OP_CHECKSIG || op == OP_CHECKSIGVERIFY {
        TrialsJudge(env);
        ok := CheckSig(op == OP_CHECKSIGVERIFY, Trials(env));
      } else if op == OP_CHECKMULTISIG || op == OP_CHECKMULTISIGVERIFY {
        TrialsJudge(env);
        ok := CheckMultisig(op == OP_CHECKMULTISIGVERIFY, Trials(env));
      } else {
        return false;
      }
    }

    // The same with the operation counter, which must stay within its limit.
    ghost predicate Charged(e: Effect, before: nat, ok: bool) reads this
    {
      && ok == (e.Done? && (e.cost > 0 ==> before + e.cost <= MAX_OPS))
      && (ok ==> e.data == Data() && nOpCount == before + e.cost)
    }

    method PushData(c: Chunk) returns (ok: bool)
      modifies this`stack
      ensures Did(PushChunk(env, c, old(Data())), ok)
    {
      if env.flags.minimalData && !CheckMinimalPush(c) { return false; }
      if c.Plain? {
        Push(FALSE);
      } else if c.len != |c.buf| {
        return false;
      } else {
        Push(c.buf);
      }
      return true;
    }

    method Conditional(op: byte, fExec: bool) returns (ok: bool)
      requires IsConditional(op) && fExec == Executing(vfExec)
      modifies this`stack, this`vfExec
      ensures ok == StepConditional(op, old(View())).Some?
      ensures ok ==> View() == StepConditional(op, old(View())).value
    {
      if op == OP_IF || op == OP_NOTIF {
        var fValue := false;
        if fExec {
          if |stack| < 1 { return false; }
          var buf := Pop();
          fValue := IsTrue(buf);
          if op == OP_NOTIF { fValue := !fValue; }
        }
        vfExec := vfExec + [fValue];
      } else if |vfExec| == 0 {
        return false;
      } else if op == OP_ELSE {
        vfExec := vfExec[|vfExec| - 1 := !vfExec[|vfExec| - 1]];
      } else {
        vfExec := vfExec[..|vfExec| - 1];
      }
      return true;
    }

    method ExecuteChunk(c: Chunk, ghost exec: ChunkExec) returns (ok: bool)
      requires Executes(exec, env, script) && nOpCount <= MAX_OPS
      modifies this`stack, this`altstack, this`pbegincodehash, this`nOpCount
      ensures Charged(exec(pc, c, old(Data())), old(nOpCount), ok)
    {
      assert exec(pc, c, Data()) == ExecChunk(env, script, pc, c, Data());
      if c.opcode <= OP_PUSHDATA4 {
        ok := PushData(c);
      } else {
        ok := ExecuteOp(c.opcode);
      }
    }

    // What no chunk gets past, in a branch that executes or not: its size, the operation count, a disabled opcode.
    method Admit(chunk: Chunk) returns (ok: bool)
      modifies this`nOpCount
      ensures nOpCount <= old(nOpCount) + Counts(chunk.opcode)
      ensures ok <==> !Oversized(chunk) && !(chunk.opcode > OP_16 && old(nOpCount) + 1 > MAX_OPS) && !Disabled(chunk.opcode)
      ensures ok ==> nOpCount == old(nOpCount) + Counts(chunk.opcode)
    {
      var op := chunk.opcode;
      if chunk.Data? && |chunk.buf| > MAX_ELEMENT { return false; }
      if op > OP_16 {
        nOpCount := nOpCount + 1;
        if nOpCount > MAX_OPS { return false; }
      }
      var disabled := IsDisabled(op);
      return !disabled;
    }

    method Step(ghost exec: ChunkExec) returns (ok: bool)
      requires Executes(exec, env, script) && pc < |script| && nOpCount <= MAX_OPS
      modifies this
      ensures script == old(script) && env == old(env)
      ensures ok == StepChunk(exec, script[old(pc)], old(View())).Some?
      ensures ok ==> View() == StepChunk(exec, script[old(pc)], old(View())).value && nOpCount <= MAX_OPS
    {
      var fExec := false !in vfExec;
      var chunk := script[pc];
      pc := pc + 1;
      var op := chunk.opcode;
      ok := Admit(chunk);
      if !ok { return false; }
      if IsConditional(op) {
        ok := Conditional(op, fExec);
      } else if fExec {
        ok := ExecuteChunk(chunk, exec);
      } else {
        return op != OP_VERIF && op != OP_VERNOTIF;
      }
    }

    // Runs the script from its current state; what it leaves is the stack.
    method Evaluate(ghost eval: Evaluation) returns (ok: bool)
      requires Evaluates(eval, env) && View() == Start(stack)
      modifies this
      ensures script == old(script) && env == old(env)
      ensures eval(old(script), old(stack)) == if ok then Some(stack) else None
    {
      assert eval(script, stack) == Machine.Evaluate(env, script, stack);
      if |ToBuffer(script)| > MAX_SCRIPT { return false; }
      ghost var exec := Opcodes(env, script);
      ghost var goal := Run(env, script, Start(stack));
      OpcodesExecute(env, script);
      while pc < |script|
        invariant script == old(script) && env == old(env) && nOpCount <= MAX_OPS
        invariant goal == Run(env, script, View())
        decreases |script| - pc
      {
        RunUnfolds(env, script, View());
        ghost var before := pc;
        ok := Step(exec);
        if !ok { return false; }
        assert pc == before + 1;
      }
      if |stack| + |altstack| > MAX_STACK { return false; }
      return |vfExec| == 0;
    }

    method Initialize(s: seq<Chunk>, initial: seq<bytes>)
      modifies this
      ensures env == old(env) && script == s && View() == Start(initial)
    {
      script := s;
      stack, altstack, pc, pbegincodehash, nOpCount, vfExec := initial, [], 0, 0, 0, [];
    }

    // The whole verification, on a fresh interpreter.
    method Verify(scriptSig: seq<Chunk>, scriptPubkey: seq<Chunk>) returns (r: Verdict)
      requires View() == Start([])
      modifies this
      ensures r == VerifyScript(old(env), scriptSig, scriptPubkey)
    {
      EvaluationsEvaluate(env);
      r := VerifyBoth(scriptSig, scriptPubkey, Evaluations(env));
    }

    method VerifyBoth(scriptSig: seq<Chunk>, scriptPubkey: seq<Chunk>, ghost eval: Evaluation) returns (r: Verdict)
      requires View() == Start([]) && Evaluates(eval, env)
      modifies this
      ensures r == VerifyWith(eval, old(env).flags, scriptSig, scriptPubkey)
    {
      script := scriptSig;
      if env.flags.sigPushOnly && !IsPushOnly(scriptSig) { return False; }
      var first := Evaluate(eval);
      if !first { return False; }
      var stackCopy := stack;
      Initialize(scriptPubkey, stack);
      var second := Evaluate(eval);
      if !second || |stack| == 0 { return False; }
      var answer := IsTrue(stack[|stack| - 1]);
      if !answer { return False; }
      if !(env.flags.p2sh && IsScriptHashOut(scriptPubkey)) { return True; }
      if !IsPushOnly(scriptSig) { return False; }
      r := Redeem(stackCopy, eval);
    }

    method Redeem(initial: seq<bytes>, ghost eval: Evaluation) returns (r: Verdict)
      requires Evaluates(eval, env)
      modifies this
      ensures r == RedeemWith(eval, initial)
    {
      var stackCopy := initial;
      if |stackCopy| == 0 { return Throws; }
      var redeemScript := ParseScript(stackCopy[|stackCopy| - 1]);
      if redeemScript.None? { return Throws; }
      stackCopy := stackCopy[..|stackCopy| - 1];
      assert stackCopy == Replace(initial, 1, []);
      Initialize(redeemScript.value, stackCopy);
      var third := Evaluate(eval);
      if !third || |stack| == 0 { return False; }
      var last := IsTrue(stack[|stack| - 1]);
      return if last then True else False;
    }
  }

  // What evaluating scripts in this environment gives.
  ghost predicate Evaluates(eval: Evaluation, env: Env)
  {
    forall script: seq<Chunk>, stack: seq<bytes> {:trigger Machine.Evaluate(env, script, stack)} ::
      eval(script, stack) == Machine.Evaluate(env, script, stack)
  }

  lemma EvaluationsEvaluate(env: Env)
    ensures Evaluates(Evaluations(env), env)
  {
  }

  // Opcodes that change the stack alone.
  predicate StackOnly(op: byte)
  {
    || op == OP_1NEGATE || OP_1 <= op <= OP_16 || op == OP_VERIFY || op == OP_IFDUP || Rearrangement(op).Some?
    || op == OP_DEPTH || op == OP_SIZE || op == OP_PICK || op == OP_ROLL || op == OP_EQUAL || op == OP_EQUALVERIFY
    || IsUnary(op) || IsBinary(op) || op == OP_WITHIN || IsHash(op)
  }

  lemma StackOnlyIsFree(env: Env, script: seq<Chunk>, pc: nat, op: byte, d: Memory)
    requires StackOnly(op)
    ensures ExecOp(env, script, pc, op, d).Done? ==> ExecOp(env, script, pc, op, d).cost == 0
  {
  }

  lemma TruthOfNumber(b: bool)
    ensures CastToBool(Encode(BoolNum(b))) == b
  {
    assert Encode(0) == [];
    if b {
      assert Magnitude(1) == [1];
      assert Encode(1)[0] == 1;
    }
  }

  lemma OneDropped(sub: seq<Chunk>, sig: bytes)
    ensures DropSignatures(sub, [sig]) == DropSignature(sub, sig)
  {
    assert [sig][1..] == [];
    assert DropSignatures(DropSignature(sub, sig), []) == DropSignature(sub, sig);
  }

  lemma DownwardsTail(s: seq<bytes>, from: nat, count: nat)
    requires 1 <= from && 1 <= count && from + count <= |s| + 1
    ensures Downwards(s, from, count)[0] == Top(s, from)
    ensures Downwards(s, from, count)[1..] == Downwards(s, from + 1, count - 1)
  {
  }
}
