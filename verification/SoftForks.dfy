// What the checks and flags of the script machine mean, and which flags are safe to add: whether a verification that
// succeeds under more flags succeeds under fewer (script/interpreter.js).

module CheckMeanings {
  import opened Bytes
  import opened ScriptNum
  import opened Script
  import opened Opcode
  import opened Crypto
  import opened Transactions
  import opened Machine
  import opened OpcodeLaws
  import Der

  // ----- signatures and keys -----

  predicate ChecksDer(f: Flags) { f.derSig || f.lowS || f.strictEnc }

  // The hash type is looked at only where the size of s is not.
  predicate Allowed(f: Flags, sig: Der.Signature)
  {
    (f.lowS ==> HasLowS(sig)) && (f.strictEnc && !f.lowS ==> HasDefinedHashType(sig))
  }

  ghost predicate Prints(buf: bytes, sig: Der.Signature) { |buf| <= 73 && buf == Der.ToTxFormat(sig) }

  // Under any of the three flags the buffers admitted are the printed forms of allowed signatures; without them, all.
  lemma AdmittedSignatures(buf: bytes, f: Flags)
    ensures SignatureEncodingOk(buf, f) <==> (ChecksDer(f) ==> exists sig :: Prints(buf, sig) && Allowed(f, sig))
  {
    if Der.IsTxDER(buf) {
      AdmittedForm(buf, f);
    } else if ChecksDer(f) {
      forall sig | Prints(buf, sig) ensures false {
        Der.CanonicalSignatures(buf, sig);
      }
    }
  }

  lemma AdmittedForm(buf: bytes, f: Flags)
    requires Der.IsTxDER(buf)
    ensures Der.FromTxFormat(buf).Some? && Prints(buf, Der.FromTxFormat(buf).value)
    ensures forall sig :: Prints(buf, sig) ==> Der.FromTxFormat(buf) == Some(sig)
  {
    Der.CanonicalSignatures(buf, Der.Signature(0, 0, 0));
    Der.CanonicalSignatures(buf, Der.FromTxFormat(buf).value);
    forall sig | Prints(buf, sig) ensures Der.FromTxFormat(buf) == Some(sig) {
      Der.CanonicalSignatures(buf, sig);
    }
  }

  lemma TryReads(env: Env, signed: seq<Chunk>, v: Verification, b: bytes, key: bytes, sig: Der.Signature)
    requires Decides(v, env, signed) && SignatureEncodingOk(b, env.flags) && PubkeyEncodingOk(key, env)
    requires Der.FromTxFormat(b) == Some(sig) && env.crypto.keyParses(key)
    ensures Try(env, signed, b, key) == if v(sig.r, sig.s, sig.hashType, key) then Hit else Miss
  {
    assert v(sig.r, sig.s, sig.hashType, key) == Verifies(env.crypto, env.tx, sig.r, sig.s, sig.hashType, key, env.nin, signed);
  }

  // Under STRICTENC nothing is swallowed: a trial fails the script unless the signature is the printed form of an allowed
  // one and the key is valid, and then its outcome is what the curve says of exactly that signature.
  lemma StrictTrials(env: Env, signed: seq<Chunk>, v: Verification, trial: SigTrial, b: bytes, key: bytes)
    requires Sound(env.crypto) && env.flags.strictEnc && Decides(v, env, signed) && Judges(trial, env)
    ensures trial(signed, b, key) == Bad
      <==> !env.crypto.keyIsValid(key) || forall sig :: Prints(b, sig) ==> !Allowed(env.flags, sig)
    ensures forall sig :: Prints(b, sig) && Allowed(env.flags, sig) && env.crypto.keyIsValid(key) ==>
      trial(signed, b, key) == if v(sig.r, sig.s, sig.hashType, key) then Hit else Miss
  {
    assert trial(signed, b, key) == Try(env, signed, b, key);
    AdmittedSignatures(b, env.flags);
    forall sig | Prints(b, sig) && Allowed(env.flags, sig) && env.crypto.keyIsValid(key)
      ensures trial(signed, b, key) == if v(sig.r, sig.s, sig.hashType, key) then Hit else Miss
    {
      Der.CanonicalSignatures(b, sig);
      TryReads(env, signed, v, b, key, sig);
    }
  }

  // ALL, NONE and SINGLE, each alone or with ANYONECANPAY.
  lemma DefinedHashTypes(sig: Der.Signature)
    ensures HasDefinedHashType(sig) <==> sig.hashType in {0x01, 0x02, 0x03, 0x81, 0x82, 0x83}
  {
  }

  // The order of the curve (SEC 2, section 2.4.1).
  const CURVE_ORDER := 0xFFFFFFFFFFFFFFFFFFFFFFFFFFFFFFFEBAAEDCE6AF48A03BBFD25E8CD0364141

  // Of the two values of s that make a signature verify, exactly one is low.
  lemma ExactlyOneIsLow(sig: Der.Signature)
    requires 0 < sig.s < CURVE_ORDER
    ensures HasLowS(sig) <==> !HasLowS(sig.(s := CURVE_ORDER - sig.s))
  {
  }

  // ----- what single flags ask for -----

  // MINIMALDATA admits a push of data exactly if nothing shorter pushes the same; without it every whole push does.
  lemma MinimalDataMeans(env: Env, script: seq<Chunk>, pc: nat, c: Chunk, d: Memory)
    requires Whole(c) && c.Data?
    ensures ExecChunk(env, script, pc, c, d) == if env.flags.minimalData && !Shortest(c) then Fail else Push(d, c.buf)
  {
    MinimalPushIsShortest(c);
  }

  // The counts are two numbers of the stack, the second of them below the keys, and everything they announce is there.
  lemma CountsMean(env: Env, s: seq<bytes>, n: nat, m: nat)
    ensures MultisigCounts(env, s) == Some((n, m)) <==>
      && m <= n <= 20 && |s| >= n + m + 3
      && Num(s[|s| - 1], env) == Some(n) && Num(s[|s| - n - 2], env) == Some(m)
  {
  }

  // NULLDUMMY takes away exactly the checks whose deepest argument is not empty.
  lemma NullDummyMeans(env: Env, trial: SigTrial, script: seq<Chunk>, verify: bool, d: Memory)
    requires env.flags.nullDummy
    ensures MultisigOp(env, trial, script, verify, d) ==
      match MultisigCounts(env, d.stack)
      case Some((n, m)) =>
        if d.stack[|d.stack| - n - m - 3] != [] then Fail
        else MultisigOp(env.(flags := env.flags.(nullDummy := false)), trial, script, verify, d)
      case None => Fail
  {
    var loose := env.(flags := env.flags.(nullDummy := false));
    assert MultisigCounts(loose, d.stack) == MultisigCounts(env, d.stack);
  }

  // SIGPUSHONLY takes away exactly the spendings by scripts that do more than push.
  lemma SigPushOnlyMeans(env: Env, sig: seq<Chunk>, out: seq<Chunk>, eval: Evaluation)
    requires env.flags.sigPushOnly
    ensures VerifyWith(eval, env.flags, sig, out) ==
      if IsPushOnly(sig) then VerifyWith(eval, env.flags.(sigPushOnly := false), sig, out) else False
  {
  }

  // A script that leaves a number other than zero on top.
  ghost predicate Succeeds(eval: Evaluation, script: seq<Chunk>, stack: seq<bytes>)
  {
    exists left, top :: eval(script, stack) == Some(left + [top]) && Decode(top) != 0
  }

  lemma SucceedsIff(eval: Evaluation, script: seq<Chunk>, stack: seq<bytes>)
    ensures Succeeds(eval, script, stack) <==>
      var r := eval(script, stack); r.Some? && r.value != [] && CastToBool(Top(r.value, 1))
  {
    var r := eval(script, stack);
    if r.Some? && r.value != [] {
      TruthIsNonZero(Top(r.value, 1));
      assert r.value == Replace(r.value, 1, []) + [Top(r.value, 1)];
    }
    if Succeeds(eval, script, stack) {
      var left, top :| eval(script, stack) == Some(left + [top]) && Decode(top) != 0;
      assert Top(left + [top], 1) == top;
    }
  }

  // Without those two flags: the first script runs on nothing, the second on what it left, and succeeds.
  lemma PlainMeans(flags: Flags, sig: seq<Chunk>, out: seq<Chunk>, eval: Evaluation)
    requires !flags.sigPushOnly && !flags.p2sh
    ensures VerifyWith(eval, flags, sig, out) == VerdictOf(eval(sig, []).Some? && Succeeds(eval, out, eval(sig, []).value))
  {
    if eval(sig, []).Some? {
      SucceedsIff(eval, out, eval(sig, []).value);
    }
  }

  // The script hashed, run on what lay below it.
  ghost predicate Redeems(eval: Evaluation, stack: seq<bytes>)
  {
    exists below, hashed, redeem ::
      stack == below + [hashed] && FromBuffer(hashed) == Some(redeem) && Succeeds(eval, redeem, below)
  }

  // P2SH takes away, of the outputs that pay to a script hash, exactly the spendings by scripts that do more than push
  // and those whose hashed script does not succeed.
  lemma P2shMeans(flags: Flags, sig: seq<Chunk>, out: seq<Chunk>, eval: Evaluation)
    requires flags.p2sh
    ensures VerifyWith(eval, flags, sig, out) == True <==>
      && VerifyWith(eval, flags.(p2sh := false), sig, out) == True
      && (IsScriptHashOut(out) ==> IsPushOnly(sig) && eval(sig, []).Some? && Redeems(eval, eval(sig, []).value))
  {
    if eval(sig, []).Some? {
      RedeemsIff(eval, eval(sig, []).value);
    }
  }

  lemma RedeemsIff(eval: Evaluation, stack: seq<bytes>)
    ensures RedeemWith(eval, stack) == True <==> Redeems(eval, stack)
  {
    if stack != [] && FromBuffer(Top(stack, 1)).Some? {
      SucceedsIff(eval, FromBuffer(Top(stack, 1)).value, Replace(stack, 1, []));
      assert stack == Replace(stack, 1, []) + [Top(stack, 1)];
    }
    if Redeems(eval, stack) {
      var below, hashed, redeem :|
        stack == below + [hashed] && FromBuffer(hashed) == Some(redeem) && Succeeds(eval, redeem, below);
      assert Replace(stack, 1, []) == below && Top(stack, 1) == hashed;
    }
  }

  // ----- lock times -----

  // Blocks up to this height, or times up to this, are past a lock time.
  predicate Passed(lock: int, height: nat, time: nat)
  {
    if lock < LOCKTIME_THRESHOLD then lock < height else lock < time
  }

  // The input keeps its transaction's lock time in force.
  predicate Waits(env: Env) { env.nin < |env.tx.inputs| && env.tx.inputs[env.nin].sequence != MAX_UINT32 }

  // The check of a number succeeds exactly where the input waits for the lock time of the transaction, and waiting for
  // that, whatever the height and the time, is waiting for the number.
  lemma LockTimeIsAwaited(env: Env, n: nat)
    ensures LockTimeSatisfied(env, n) <==>
      Waits(env) && forall height: nat, time: nat :: Passed(env.tx.nLockTime, height, time) ==> Passed(n, height, time)
  {
    var lock: nat := env.tx.nLockTime;
    assert Passed(lock, lock + 1, lock + 1);
    if lock < LOCKTIME_THRESHOLD <= n {
      assert Passed(lock, lock + 1, 0) && !Passed(n, lock + 1, 0);
    }
    if n < LOCKTIME_THRESHOLD <= lock {
      assert Passed(lock, 0, lock + 1) && !Passed(n, 0, lock + 1);
    }
    if n > lock {
      assert !Passed(n, lock + 1, lock + 1);
    }
  }

  // The opcode changes nothing. With its flag it succeeds exactly where the top is a readable number of up to five bytes,
  // not negative, that the input waits for.
  lemma LockTimeOpMeans(env: Env, d: Memory)
    requires env.flags.checkLockTime
    ensures LockTimeOp(env, d).Done? ==> LockTimeOp(env, d) == Done(d, 0)
    ensures LockTimeOp(env, d).Done? <==>
      && d.stack != []
      && var n := FromScriptNum(Top(d.stack, 1), env.flags.minimalData, 5);
        && n.Some? && n.value >= 0 && Waits(env)
        && forall height: nat, time: nat :: Passed(env.tx.nLockTime, height, time) ==> Passed(n.value, height, time)
  {
    if d.stack != [] {
      var n := FromScriptNum(Top(d.stack, 1), env.flags.minimalData, 5);
      if n.Some? && n.value >= 0 {
        LockTimeIsAwaited(env, n.value);
      }
    }
  }

  // ----- numbers -----

  // How the binary opcodes relate to each other and to the unary ones.
  lemma BinaryLaws(a: int, b: int)
    ensures BinaryResult(OP_SUB, BinaryResult(OP_ADD, a, b), b) == a
    ensures BinaryResult(OP_MIN, a, b) + BinaryResult(OP_MAX, a, b) == BinaryResult(OP_ADD, a, b)
    ensures BinaryResult(OP_LESSTHANOREQUAL, BinaryResult(OP_MIN, a, b), BinaryResult(OP_MAX, a, b)) == 1
    ensures BinaryResult(OP_MIN, a, b) in {a, b}
    ensures BinaryResult(OP_LESSTHAN, a, b) + BinaryResult(OP_NUMEQUAL, a, b) + BinaryResult(OP_GREATERTHAN, a, b) == 1
    ensures BinaryResult(OP_LESSTHAN, a, b) == 1 <==> BinaryResult(OP_SUB, b, a) > 0
    ensures BinaryResult(OP_GREATERTHAN, a, b) == BinaryResult(OP_LESSTHAN, b, a)
    ensures BinaryResult(OP_LESSTHANOREQUAL, a, b) == UnaryResult(OP_NOT, BinaryResult(OP_GREATERTHAN, a, b))
    ensures BinaryResult(OP_GREATERTHANOREQUAL, a, b) == UnaryResult(OP_NOT, BinaryResult(OP_LESSTHAN, a, b))
    ensures BinaryResult(OP_NUMNOTEQUAL, a, b) == UnaryResult(OP_NOT, BinaryResult(OP_NUMEQUAL, a, b))
    ensures BinaryResult(OP_NUMEQUALVERIFY, a, b) == BinaryResult(OP_NUMEQUAL, a, b)
    ensures BinaryResult(OP_NUMEQUAL, a, b) == UnaryResult(OP_NOT, BinaryResult(OP_SUB, a, b))
    ensures BinaryResult(OP_BOOLAND, a, b) == BinaryResult(OP_MIN, UnaryResult(OP_0NOTEQUAL, a), UnaryResult(OP_0NOTEQUAL, b))
    ensures BinaryResult(OP_BOOLOR, a, b) == BinaryResult(OP_MAX, UnaryResult(OP_0NOTEQUAL, a), UnaryResult(OP_0NOTEQUAL, b))
  {
  }
}

module SoftForks {
  import opened Bytes
  import opened ScriptNum
  import opened Script
  import opened Opcode
  import opened Crypto
  import opened Transactions
  import opened Machine
  import opened MultisigScripts
  import opened CheckMeanings
  import Der

  // Every flag of g is one of f's.
  predicate Part(g: Flags, f: Flags)
  {
    && (g.p2sh ==> f.p2sh) && (g.strictEnc ==> f.strictEnc) && (g.derSig ==> f.derSig) && (g.lowS ==> f.lowS)
    && (g.nullDummy ==> f.nullDummy) && (g.sigPushOnly ==> f.sigPushOnly) && (g.minimalData ==> f.minimalData)
    && (g.discourageNops ==> f.discourageNops) && (g.checkLockTime ==> f.checkLockTime)
  }

  // Two flags take a check away where another one stands: LOW_S the one of the hash type under STRICTENC, and
  // CHECKLOCKTIMEVERIFY the one that discourages NOP2.
  predicate LosesCheck(g: Flags, f: Flags)
  {
    || (g.strictEnc && !g.lowS && f.lowS)
    || (g.discourageNops && !g.checkLockTime && f.checkLockTime)
  }

  predicate Safe(g: Flags, f: Flags) { Part(g, f) && !LosesCheck(g, f) }

  // The same machine under fewer flags.
  ghost predicate Loosened(loose: Env, env: Env)
  {
    loose == env.(flags := loose.flags) && Safe(loose.flags, env.flags)
  }

  // What succeeds does the same.
  predicate Follows(loose: Effect, e: Effect) { e.Done? ==> loose == e }

  lemma SignatureFollows(buf: bytes, g: Flags, f: Flags)
    requires Safe(g, f) && SignatureEncodingOk(buf, f)
    ensures SignatureEncodingOk(buf, g)
  {
  }

  lemma TryFollows(loose: Env, env: Env, sub: seq<Chunk>, sig: bytes, key: bytes)
    requires Loosened(loose, env) && Try(env, sub, sig, key) != Bad
    ensures Try(loose, sub, sig, key) == Try(env, sub, sig, key)
  {
    SignatureFollows(sig, loose.flags, env.flags);
  }

  // A trial that does not abort comes out the same.
  ghost predicate TrialsFollow(loose: SigTrial, trial: SigTrial)
  {
    forall sub, sig, key :: trial(sub, sig, key) != Bad ==> loose(sub, sig, key) == trial(sub, sig, key)
  }

  lemma LoosenedTrials(loose: Env, env: Env)
    requires Loosened(loose, env)
    ensures TrialsFollow(Trials(loose), Trials(env))
  {
    forall sub, sig, key | Trials(env)(sub, sig, key) != Bad ensures Trials(loose)(sub, sig, key) == Trials(env)(sub, sig, key) {
      TryFollows(loose, env, sub, sig, key);
    }
  }

  lemma {:induction false} GreedyFollows(loose: SigTrial, trial: SigTrial, sub: seq<Chunk>, sigs: seq<bytes>, keys: seq<bytes>)
    requires TrialsFollow(loose, trial) && |sigs| <= |keys| && GreedyMatch(trial, sub, sigs, keys) != Abort
    ensures GreedyMatch(loose, sub, sigs, keys) == GreedyMatch(trial, sub, sigs, keys)
    decreases |keys|
  {
    if sigs != [] {
      var rest := if trial(sub, sigs[0], keys[0]) == Hit then sigs[1..] else sigs;
      if |rest| <= |keys| - 1 {
        GreedyFollows(loose, trial, sub, rest, keys[1..]);
      }
    }
  }

  // ----- opcodes -----

  lemma NumbersFollow(loose: Env, env: Env, op: byte, d: Memory)
    requires Loosened(loose, env)
    ensures IsUnary(op) ==> Follows(UnaryOp(op, loose, d), UnaryOp(op, env, d))
    ensures IsBinary(op) ==> Follows(BinaryOp(op, loose, d), BinaryOp(op, env, d))
    ensures Follows(WithinOp(loose, d), WithinOp(env, d))
    ensures Follows(PickOp(op, loose, d), PickOp(op, env, d))
  {
  }

  lemma LockTimeFollows(loose: Env, env: Env, d: Memory)
    requires Loosened(loose, env)
    ensures Follows(LockTimeOp(loose, d), LockTimeOp(env, d))
  {
  }

  lemma CheckSigFollows(loose: SigTrial, trial: SigTrial, script: seq<Chunk>, verify: bool, d: Memory)
    requires TrialsFollow(loose, trial)
    ensures Follows(CheckSigOp(loose, script, verify, d), CheckSigOp(trial, script, verify, d))
  {
  }

  lemma CountsFollow(loose: Env, env: Env, s: seq<bytes>)
    requires Loosened(loose, env) && MultisigCounts(env, s).Some?
    ensures MultisigCounts(loose, s) == MultisigCounts(env, s)
  {
  }

  lemma MultisigFollows(loose: Env, env: Env, lt: SigTrial, t: SigTrial, script: seq<Chunk>, verify: bool, d: Memory)
    requires Loosened(loose, env) && TrialsFollow(lt, t)
    ensures Follows(MultisigOp(loose, lt, script, verify, d), MultisigOp(env, t, script, verify, d))
  {
    if MultisigOp(env, t, script, verify, d).Done? {
      var (n, m) := MultisigCounts(env, d.stack).value;
      CountsFollow(loose, env, d.stack);
      MatchFollows(lt, t, SignedPart(script, d.sep), d.stack, n, m);
    }
  }

  lemma MatchFollows(loose: SigTrial, trial: SigTrial, signed: seq<Chunk>, s: seq<bytes>, n: nat, m: nat)
    requires TrialsFollow(loose, trial) && m <= n && n + m + 3 <= |s| && MatchOnStack(trial, signed, s, n, m) != Abort
    ensures MatchOnStack(loose, signed, s, n, m) == MatchOnStack(trial, signed, s, n, m)
  {
    var keys, sigs := Downwards(s, 2, n), Downwards(s, n + 3, m);
    GreedyFollows(loose, trial, DropSignatures(signed, sigs), sigs, keys);
  }

  predicate LooksAtFlags(op: byte)
  {
    || ReadsNumbers(op) || op == OP_CHECKLOCKTIMEVERIFY || op == OP_NOP1 || OP_NOP3 <= op <= OP_NOP10
    || op == OP_CHECKSIG || op == OP_CHECKSIGVERIFY || op == OP_CHECKMULTISIG || op == OP_CHECKMULTISIGVERIFY
  }

  predicate ReadsNumbers(op: byte) { op == OP_PICK || op == OP_ROLL || IsUnary(op) || IsBinary(op) || op == OP_WITHIN }

  lemma OtherOpsFollow(loose: Env, env: Env, script: seq<Chunk>, pc: nat, op: byte, d: Memory)
    requires loose == env.(flags := loose.flags) && !LooksAtFlags(op)
    ensures ExecOp(loose, script, pc, op, d) == ExecOp(env, script, pc, op, d)
  {
  }

  lemma NumberOpsFollow(loose: Env, env: Env, script: seq<Chunk>, pc: nat, op: byte, d: Memory)
    requires Loosened(loose, env) && ReadsNumbers(op)
    ensures Follows(ExecOp(loose, script, pc, op, d), ExecOp(env, script, pc, op, d))
  {
    NumbersFollow(loose, env, op, d);
  }

  lemma CheckOpsFollow(loose: Env, env: Env, script: seq<Chunk>, pc: nat, op: byte, d: Memory)
    requires Loosened(loose, env) && LooksAtFlags(op) && !ReadsNumbers(op)
    ensures Follows(ExecOp(loose, script, pc, op, d), ExecOp(env, script, pc, op, d))
  {
    LoosenedTrials(loose, env);
    LockTimeFollows(loose, env, d);
    CheckSigFollows(Trials(loose), Trials(env), script, op == OP_CHECKSIGVERIFY, d);
    MultisigFollows(loose, env, Trials(loose), Trials(env), script, op == OP_CHECKMULTISIGVERIFY, d);
  }

  lemma ChunkFollows(loose: Env, env: Env, script: seq<Chunk>, pc: nat, c: Chunk, d: Memory)
    requires Loosened(loose, env)
    ensures Follows(ExecChunk(loose, script, pc, c, d), ExecChunk(env, script, pc, c, d))
  {
    if c.opcode > OP_PUSHDATA4 {
      if ReadsNumbers(c.opcode) {
        NumberOpsFollow(loose, env, script, pc, c.opcode, d);
      } else if LooksAtFlags(c.opcode) {
        CheckOpsFollow(loose, env, script, pc, c.opcode, d);
      } else {
        OtherOpsFollow(loose, env, script, pc, c.opcode, d);
      }
    }
  }

  // ----- runs and verifications -----

  lemma StepFollows(loose: ChunkExec, exec: ChunkExec, c: Chunk, st: State)
    requires Follows(loose(st.pc + 1, c, st.data), exec(st.pc + 1, c, st.data)) && StepChunk(exec, c, st).Some?
    ensures StepChunk(loose, c, st) == StepChunk(exec, c, st)
  {
  }

  lemma {:induction false} RunFollows(loose: Env, env: Env, script: seq<Chunk>, st: State)
    requires Loosened(loose, env) && Run(env, script, st).Some?
    ensures Run(loose, script, st) == Run(env, script, st)
    decreases |script| - st.pc
  {
    if st.pc < |script| {
      ChunkFollows(loose, env, script, st.pc + 1, script[st.pc], st.data);
      RunUnfolds(env, script, st);
      RunUnfolds(loose, script, st);
      StepFollows(Opcodes(loose, script), Opcodes(env, script), script[st.pc], st);
      RunFollows(loose, env, script, Step(env, script, st).value);
    }
  }

  lemma EvaluationFollows(loose: Env, env: Env, script: seq<Chunk>, stack: seq<bytes>)
    requires Loosened(loose, env) && Evaluate(env, script, stack).Some?
    ensures Evaluate(loose, script, stack) == Evaluate(env, script, stack)
  {
    RunFollows(loose, env, script, Start(stack));
  }

  ghost predicate EvaluationsFollow(loose: Evaluation, eval: Evaluation)
  {
    forall script, stack :: eval(script, stack).Some? ==> loose(script, stack) == eval(script, stack)
  }

  lemma VerificationFollows(loose: Evaluation, eval: Evaluation, g: Flags, f: Flags, scriptSig: seq<Chunk>, scriptPubkey: seq<Chunk>)
    requires EvaluationsFollow(loose, eval) && Part(g, f) && VerifyWith(eval, f, scriptSig, scriptPubkey) == True
    ensures VerifyWith(loose, g, scriptSig, scriptPubkey) == True
  {
  }

  // Flags only restrict: what verifies under some flags verifies under every part of them, as long as the flags left out
  // include none that had taken a check away from those kept.
  lemma FlagsOnlyRestrict(loose: Env, env: Env, scriptSig: seq<Chunk>, scriptPubkey: seq<Chunk>)
    requires Loosened(loose, env) && VerifyScript(env, scriptSig, scriptPubkey) == True
    ensures VerifyScript(loose, scriptSig, scriptPubkey) == True
  {
    forall script, stack | Evaluations(env)(script, stack).Some?
      ensures Evaluations(loose)(script, stack) == Evaluations(env)(script, stack)
    {
      EvaluationFollows(loose, env, script, stack);
    }
    VerificationFollows(Evaluations(loose), Evaluations(env), loose.flags, env.flags, scriptSig, scriptPubkey);
  }

  // ----- where a flag does take a check away -----

  lemma TopIsTrue(eval: Evaluation, flags: Flags, out: seq<Chunk>, below: seq<bytes>)
    requires eval([], []) == Some([]) && !IsScriptHashOut(out)
    ensures eval(out, []) == Some(below + [TRUE]) ==> VerifyWith(eval, flags, [], out) == True
    ensures eval(out, []) == None ==> VerifyWith(eval, flags, [], out) == False
  {
    assert Top(below + [TRUE], 1) == TRUE && TRUE[0] == 1;
  }

  lemma EvaluateNothing(env: Env)
    ensures Evaluate(env, [], []) == Some([])
  {
  }

  const WAITING: seq<Chunk> := [Plain(OP_1), Plain(OP_CHECKLOCKTIMEVERIFY)]

  lemma WaitingRuns(env: Env)
    ensures var e := LockTimeOp(env, Memory([TRUE], [], 0));
      Evaluate(env, WAITING, []) == if e.Fail? then None else Some([TRUE])
    ensures !IsScriptHashOut(WAITING)
  {
    var s0, s1 := Start([]), State(Memory([TRUE], [], 0), 1, 0, []);
    var check, run := CheckAndRunner(env, WAITING);
    SmallIntPushes(1);
    assert Magnitude(1) == [1];
    StepPushes(env, WAITING, s0);
    assert Pushed(s0, [TRUE]) == s1;
    RunOnce(env, run, WAITING, s0, s1);
    LockTimeOpKeeps(env, s1.data);
    StepExecuted(Opcodes(env, WAITING), OP_CHECKLOCKTIMEVERIFY, s1);
    ExecLockTime(env, WAITING, 2, s1.data);
    RunsBy(env, run, Opcodes(env, WAITING), WAITING, s1);
    RunEnded(env, run, WAITING, State(s1.data, 2, 1, []));
    EvaluatedBy(env, run, WAITING, []);
    WaitingBytes();
  }

  lemma WaitingBytes()
    ensures ToBuffer(WAITING) == [OP_1, OP_CHECKLOCKTIMEVERIFY]
  {
    assert WAITING[1..] == [Plain(OP_CHECKLOCKTIMEVERIFY)] && WAITING[2..] == [];
    OneChunk(Plain(OP_CHECKLOCKTIMEVERIFY));
    assert ToBuffer(WAITING) == ChunkBytes(WAITING[0]) + ToBuffer(WAITING[1..]);
  }

  lemma LockTimeOpKeeps(env: Env, d: Memory)
    ensures LockTimeOp(env, d).Done? ==> LockTimeOp(env, d) == Done(d, 0)
  {
  }

  lemma ExecLockTime(env: Env, script: seq<Chunk>, pc: nat, d: Memory)
    ensures Opcodes(env, script)(pc, Plain(OP_CHECKLOCKTIMEVERIFY), d) == LockTimeOp(env, d)
  {
  }

  // An output that verifies in an environment and fails under the flags g.
  ghost predicate Widens(env: Env, g: Flags, out: seq<Chunk>)
  {
    VerifyScript(env, [], out) == True && VerifyScript(env.(flags := g), [], out) == False
  }

  // A script that waits for height 1, in an input that does: it verifies with NOP2 discouraged and its new meaning in
  // force, and fails with NOP2 merely discouraged.
  lemma LockTimeWidens(env: Env, g: Flags)
    requires Part(g, env.flags) && g.discourageNops && !g.checkLockTime && env.flags.checkLockTime
    requires Waits(env) && 1 <= env.tx.nLockTime < LOCKTIME_THRESHOLD
    ensures Widens(env, g, WAITING)
  {
    var loose := env.(flags := g);
    WaitingRuns(env);
    WaitingRuns(loose);
    EvaluateNothing(env);
    EvaluateNothing(loose);
    OneIsRead(env);
    TopIsTrue(Evaluations(env), env.flags, WAITING, []);
    TopIsTrue(Evaluations(loose), g, WAITING, []);
  }

  lemma OneIsRead(env: Env)
    requires env.flags.checkLockTime && Waits(env) && 1 <= env.tx.nLockTime < LOCKTIME_THRESHOLD
    ensures LockTimeOp(env, Memory([TRUE], [], 0)).Done?
  {
    assert Magnitude(1) == [1];
    assert Encode(1) == TRUE;
    EncodeLength(1, 1);
    MinimalDecodingIsBijective(TRUE, 5, 1);
    DecodeEncode(1);
    assert Top([TRUE], 1) == TRUE;
  }

  // The printed form of a signature of undefined type.
  function Untyped(): bytes { Der.ToTxFormat(Der.Signature(1, 1, 0)) }

  lemma UntypedForm()
    ensures 9 <= |Untyped()| <= 73 && Der.IsTxDER(Untyped()) && Der.FromTxFormat(Untyped()) == Some(Der.Signature(1, 1, 0))
  {
    OneFits();
    Der.WrittenSignatureIsCanonical(Der.Signature(1, 1, 0));
  }

  // Under STRICTENC such a signature fails the script, unless LOW_S stands beside it.
  lemma UntypedTrial(env: Env, sub: seq<Chunk>, key: bytes)
    requires env.flags.strictEnc && env.crypto.keyIsValid(key)
    ensures Try(env, sub, Untyped(), key) == Bad <==> !env.flags.lowS
  {
    UntypedForm();
  }

  // A script that checks such a signature and does not mind the answer.
  function Careless(key: bytes): seq<Chunk>
    requires |Untyped()| < MAX_PUSH && |key| < MAX_PUSH
  {
    [PushOf(Untyped()), PushOf(key), Plain(OP_CHECKSIG), Plain(OP_1)]
  }

  lemma CarelessShape(key: bytes)
    requires 2 <= |key| <= MAX_ELEMENT
    ensures 2 <= |Untyped()| <= MAX_ELEMENT && PushAt(Careless(key), 0, [Untyped(), key])
    ensures PushedBy(Careless(key)[3]) == Some(TRUE)
    ensures |ToBuffer(Careless(key))| <= MAX_SCRIPT
  {
    UntypedForm();
    PushOfPushes(Untyped());
    PushOfPushes(key);
    SmallIntPushes(1);
    assert Magnitude(1) == [1];
    var script, values := Careless(key), [Untyped(), key];
    forall i | 0 <= i < 2 ensures PushedBy(script[0 + i]) == Some(values[i]) { }
    CarelessIsShort(key);
  }

  lemma CarelessIsShort(key: bytes)
    requires |Untyped()| <= MAX_ELEMENT && |key| <= MAX_ELEMENT
    ensures |ToBuffer(Careless(key))| <= MAX_SCRIPT
  {
    ToBufferBound(Careless(key), 530);
  }

  lemma ExecCheckSig(env: Env, script: seq<Chunk>, pc: nat, d: Memory)
    ensures Opcodes(env, script)(pc, Plain(OP_CHECKSIG), d) == CheckSigOp(Trials(env), script, false, d)
  {
  }

  lemma CarelessCheck(trial: SigTrial, script: seq<Chunk>, sig: bytes, key: bytes)
    ensures var t, e := trial(DropSignature(script, sig), sig, key), CheckSigOp(trial, script, false, Memory([sig, key], [], 0));
      e == if t == Bad then Fail else Done(Memory([Bool(t == Hit)], [], 0), 0)
  {
    assert script[0..] == script;
    assert Top([sig, key], 2) == sig && Top([sig, key], 1) == key;
    assert forall b: bytes :: Replace([sig, key], 2, [b]) == [b];
  }

  lemma CarelessRuns(env: Env, key: bytes)
    requires 2 <= |key| <= MAX_ELEMENT
    ensures 2 <= |Untyped()| <= MAX_ELEMENT
    ensures var t := Try(env, DropSignature(Careless(key), Untyped()), Untyped(), key);
      Evaluate(env, Careless(key), []) == if t == Bad then None else Some([Bool(t == Hit)] + [TRUE])
  {
    CarelessShape(key);
    var script := Careless(key);
    var check, run := CheckAndRunner(env, script);
    var loaded := State(Memory([Untyped(), key], [], 0), 2, 0, []);
    RunPushes(env, run, script, Start([]), [Untyped(), key]);
    assert Pushed(Start([]), [Untyped(), key]) == loaded;
    ExecCheckSig(env, script, 3, loaded.data);
    CarelessCheck(Trials(env), script, Untyped(), key);
    StepExecuted(Opcodes(env, script), OP_CHECKSIG, loaded);
    RunsBy(env, run, Opcodes(env, script), script, loaded);
    var t := Try(env, DropSignature(script, Untyped()), Untyped(), key);
    if t != Bad {
      var checked := State(Memory([Bool(t == Hit)], [], 0), 3, 1, []);
      PushOnce(env, run, script, checked, TRUE);
      RunEnded(env, run, script, Pushed(checked, [TRUE]));
    }
    EvaluatedBy(env, run, script, []);
  }

  // The careless script verifies under STRICTENC with LOW_S, and fails under STRICTENC alone.
  lemma LowSWidens(env: Env, g: Flags, key: bytes)
    requires Part(g, env.flags) && g.strictEnc && !g.lowS && env.flags.lowS
    requires 2 <= |key| <= MAX_ELEMENT && env.crypto.keyIsValid(key)
    ensures |Untyped()| < MAX_PUSH
    ensures Widens(env, g, Careless(key))
  {
    var loose := env.(flags := g);
    CarelessRuns(env, key);
    CarelessRuns(loose, key);
    var sub := DropSignature(Careless(key), Untyped());
    UntypedTrial(env, sub, key);
    UntypedTrial(loose, sub, key);
    EvaluateNothing(env);
    EvaluateNothing(loose);
    CarelessIsNoHash(key);
    TopIsTrue(Evaluations(env), env.flags, Careless(key), [Bool(Try(env, sub, Untyped(), key) == Hit)]);
    TopIsTrue(Evaluations(loose), g, Careless(key), []);
  }

  lemma CarelessIsNoHash(key: bytes)
    requires |Untyped()| < MAX_PUSH && |key| < MAX_PUSH
    ensures !IsScriptHashOut(Careless(key))
  {
    UntypedForm();
    FirstOpcode(Careless(key));
  }

  // ----- which flags are safe to add -----

  // Whatever verifies under f verifies under its part g.
  ghost predicate OnlyRestricts(g: Flags, f: Flags)
  {
    forall env: Env, scriptSig: seq<Chunk>, scriptPubkey: seq<Chunk> ::
      Sound(env.crypto) && env.flags == f && VerifyScript(env, scriptSig, scriptPubkey) == True ==>
        VerifyScript(env.(flags := g), scriptSig, scriptPubkey) == True
  }

  function Zeros(n: nat): bytes { seq(n, _ => 0) }

  // Every key is valid, and no signature verifies.
  ghost function Mute(): (c: Crypto)
    ensures Sound(c)
  {
    Crypto(_ => Zeros(20), _ => Zeros(20), _ => Zeros(32), _ => true, _ => true, (_, _, _, _) => false)
  }

  // An input that waits for height 1.
  function Waiting(): Tx { Tx(1, false, None, [TxIn(Zeros(32), 0, [], 0)], [], [], 1) }

  lemma SafeRestricts(g: Flags, f: Flags)
    requires Safe(g, f)
    ensures OnlyRestricts(g, f)
  {
    forall env: Env, scriptSig: seq<Chunk>, scriptPubkey: seq<Chunk>
      | Sound(env.crypto) && env.flags == f && VerifyScript(env, scriptSig, scriptPubkey) == True
      ensures VerifyScript(env.(flags := g), scriptSig, scriptPubkey) == True
    {
      FlagsOnlyRestrict(env.(flags := g), env, scriptSig, scriptPubkey);
    }
  }

  lemma LosingWidens(g: Flags, f: Flags)
    requires Part(g, f) && LosesCheck(g, f)
    ensures exists out :: Widens(Env(Mute(), f, Waiting(), 0), g, out)
  {
    var env := Env(Mute(), f, Waiting(), 0);
    if g.discourageNops && !g.checkLockTime && f.checkLockTime {
      LockTimeWidens(env, g);
      assert Widens(env, g, WAITING);
    } else {
      LowSWidens(env, g, Zeros(33));
      assert Widens(env, g, Careless(Zeros(33)));
    }
  }

  // Adding flags only restricts what verifies if and only if no flag added takes away the check of a flag kept.
  lemma OnlyRestrictsIff(g: Flags, f: Flags)
    requires Part(g, f)
    ensures OnlyRestricts(g, f) <==> !LosesCheck(g, f)
  {
    if LosesCheck(g, f) {
      LosingWidens(g, f);
      var out :| Widens(Env(Mute(), f, Waiting(), 0), g, out);
    } else {
      SafeRestricts(g, f);
    }
  }

  lemma OneFits()
    ensures 1 < Pow256(32)
  {
    assert Pow256(32) == 256 * Pow256(31);
  }
}
