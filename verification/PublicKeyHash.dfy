// Outputs that pay to the hash of a public key, and who can spend them.

module PublicKeyHash {
  import opened Bytes
  import opened Script
  import opened Opcode
  import opened Crypto
  import opened Machine
  import opened MultisigScripts
  import opened CheckMeanings
  import Der

  // ----- one opcode of the output -----

  // A plain opcode that leaves the operation counter alone.
  lemma OpRuns(env: Env, run: Runner, script: seq<Chunk>, st: State, op: byte, e: Effect)
    requires Runs(run, env, script) && st.pc < |script| && script[st.pc] == Plain(op)
    requires op > OP_16 && !Disabled(op) && !IsConditional(op) && st.vfExec == [] && st.nOpCount < MAX_OPS
    requires ExecOp(env, script, st.pc + 1, op, st.data) == e && (e.Done? ==> e.cost == 0)
    ensures run(st) == if e.Fail? then None else run(State(e.data, st.pc + 1, st.nOpCount + 1, []))
  {
    OpcodesExecute(env, script);
    ExecOpIs(env, script, st.pc + 1, op, st.data);
    StepExecuted(Opcodes(env, script), op, st);
    RunsBy(env, run, Opcodes(env, script), script, st);
  }

  lemma ExecOpIs(env: Env, script: seq<Chunk>, pc: nat, op: byte, d: Memory)
    requires op > OP_16
    ensures Opcodes(env, script)(pc, Plain(op), d) == ExecOp(env, script, pc, op, d)
  {
  }

  lemma DupDoes(env: Env, script: seq<Chunk>, pc: nat, d: Memory)
    requires d.stack != []
    ensures ExecOp(env, script, pc, OP_DUP, d) == Done(d.(stack := d.stack + [Top(d.stack, 1)]), 0)
  {
    assert Rearranged(d.stack, 1, [0, 0]) == d.stack + [Top(d.stack, 1)];
  }

  lemma HashDoes(env: Env, script: seq<Chunk>, pc: nat, d: Memory)
    requires d.stack != []
    ensures ExecOp(env, script, pc, OP_HASH160, d)
      == Done(d.(stack := Replace(d.stack, 1, [env.crypto.sha256ripemd160(Top(d.stack, 1))])), 0)
  {
  }

  lemma EqualVerifyDoes(env: Env, script: seq<Chunk>, pc: nat, d: Memory)
    requires |d.stack| >= 2
    ensures ExecOp(env, script, pc, OP_EQUALVERIFY, d) ==
      if Top(d.stack, 2) == Top(d.stack, 1) then Done(d.(stack := Replace(d.stack, 2, [])), 0) else Fail
  {
  }

  lemma CheckSigDoes(env: Env, script: seq<Chunk>, pc: nat, d: Memory)
    ensures ExecOp(env, script, pc, OP_CHECKSIG, d) == CheckSigOp(Trials(env), script, false, d)
  {
  }

  // ----- a run of the output -----

  // What the output makes of a signature and a key.
  function Outcomes(env: Env, sig: bytes, key: bytes, h: bytes): Trial
    requires |h| < MAX_PUSH
  {
    if env.crypto.sha256ripemd160(key) != h then Bad else Try(env, DropSignature(PublicKeyHashOut(h), sig), sig, key)
  }

  // The key is copied and hashed, and the hash compared.
  lemma RunToCheck(env: Env, run: Runner, sig: bytes, key: bytes, h: bytes)
    requires |h| == 20 && Runs(run, env, PublicKeyHashOut(h))
    ensures run(Start([sig, key])) ==
      if env.crypto.sha256ripemd160(key) != h then None else run(State(Memory([sig, key], [], 0), 4, 3, []))
  {
    var script, hashed := PublicKeyHashOut(h), env.crypto.sha256ripemd160(key);
    var s1 := State(Memory([sig, key, key], [], 0), 1, 1, []);
    var s2 := State(Memory([sig, key, hashed], [], 0), 2, 2, []);
    var s3 := State(Memory([sig, key, hashed, h], [], 0), 3, 2, []);
    DupDoes(env, script, 1, Start([sig, key]).data);
    OpRuns(env, run, script, Start([sig, key]), OP_DUP, Done(s1.data, 0));
    HashDoes(env, script, 2, s1.data);
    assert Replace([sig, key, key], 1, [hashed]) == [sig, key, hashed];
    OpRuns(env, run, script, s1, OP_HASH160, Done(s2.data, 0));
    PushOfPushes(h);
    PushOnce(env, run, script, s2, h);
    assert Pushed(s2, [h]) == s3;
    EqualVerifyDoes(env, script, 4, s3.data);
    assert Replace([sig, key, hashed, h], 2, []) == [sig, key];
    OpRuns(env, run, script, s3, OP_EQUALVERIFY, if hashed == h then Done(Memory([sig, key], [], 0), 0) else Fail);
  }

  lemma CheckedAlone(trial: SigTrial, script: seq<Chunk>, sig: bytes, key: bytes)
    ensures var t, e := trial(DropSignature(script, sig), sig, key), CheckSigOp(trial, script, false, Memory([sig, key], [], 0));
      e == if t == Bad then Fail else Done(Memory([Bool(t == Hit)], [], 0), 0)
  {
    assert script[0..] == script;
    assert Top([sig, key], 2) == sig && Top([sig, key], 1) == key;
    assert forall b: bytes :: Replace([sig, key], 2, [b]) == [b];
  }

  lemma RunOfOut(env: Env, run: Runner, sig: bytes, key: bytes, h: bytes)
    requires |h| == 20 && Runs(run, env, PublicKeyHashOut(h))
    ensures var t := Outcomes(env, sig, key, h);
      run(Start([sig, key])) == if t == Bad then None else Some(State(Memory([Bool(t == Hit)], [], 0), 5, 4, []))
  {
    var script, st := PublicKeyHashOut(h), State(Memory([sig, key], [], 0), 4, 3, []);
    RunToCheck(env, run, sig, key, h);
    if env.crypto.sha256ripemd160(key) == h {
      var t := Trials(env)(DropSignature(script, sig), sig, key);
      CheckedAlone(Trials(env), script, sig, key);
      CheckSigDoes(env, script, 5, st.data);
      OpRuns(env, run, script, st, OP_CHECKSIG, if t == Bad then Fail else Done(Memory([Bool(t == Hit)], [], 0), 0));
      if t != Bad { RunEnded(env, run, script, State(Memory([Bool(t == Hit)], [], 0), 5, 4, [])); }
    }
  }

  lemma OutIsPlain(h: bytes)
    requires |h| == 20
    ensures |ToBuffer(PublicKeyHashOut(h))| <= MAX_SCRIPT && !IsScriptHashOut(PublicKeyHashOut(h))
  {
    ToBufferBound(PublicKeyHashOut(h), 21);
    FirstOpcode(PublicKeyHashOut(h));
  }

  lemma EvaluateOut(env: Env, sig: bytes, key: bytes, h: bytes)
    requires |h| == 20
    ensures Evaluate(env, PublicKeyHashOut(h), [sig, key]) ==
      match Outcomes(env, sig, key, h) case Bad => None case Hit => Some([TRUE]) case Miss => Some([FALSE])
  {
    var check, run := CheckAndRunner(env, PublicKeyHashOut(h));
    RunOfOut(env, run, sig, key, h);
    OutIsPlain(h);
    EvaluatedBy(env, run, PublicKeyHashOut(h), [sig, key]);
  }

  lemma EvaluateIn(env: Env, sig: bytes, key: bytes)
    requires 2 <= |sig| <= MAX_ELEMENT && 2 <= |key| <= MAX_ELEMENT
    ensures IsPushOnly(PublicKeyHashIn(sig, key)) && Evaluate(env, PublicKeyHashIn(sig, key), []) == Some([sig, key])
  {
    var script, values := PublicKeyHashIn(sig, key), [sig, key];
    PushOfPushes(sig);
    PushOfPushes(key);
    forall i | 0 <= i < 2 ensures PushedBy(script[0 + i]) == Some(values[i]) { }
    ToBufferBound(script, 530);
    EvaluatePushes(env, script, values);
  }

  // ----- who can spend -----

  // A signature and a key spend the output exactly if the key hashes to the one paid to and the signature verifies
  // against it, under every choice of flags.
  lemma SpendsIff(env: Env, sig: bytes, key: bytes, h: bytes)
    requires 2 <= |sig| <= MAX_ELEMENT && 2 <= |key| <= MAX_ELEMENT && |h| == 20
    ensures VerifyScript(env, PublicKeyHashIn(sig, key), PublicKeyHashOut(h)) == VerdictOf(
      env.crypto.sha256ripemd160(key) == h && Try(env, DropSignature(PublicKeyHashOut(h), sig), sig, key) == Hit)
  {
    EvaluateIn(env, sig, key);
    EvaluateOut(env, sig, key, h);
    OutIsPlain(h);
    BareWith(Evaluations(env), env.flags, PublicKeyHashIn(sig, key), PublicKeyHashOut(h), [sig, key],
             Outcomes(env, sig, key, h) == Hit);
  }

  // The same for a written signature and a valid key, in terms of the curve: the signature has to be of the form the
  // flags ask for.
  lemma WrittenSpendsIff(env: Env, v: Verification, sig: Der.Signature, key: bytes, h: bytes)
    requires Sound(env.crypto) && sig.r < Pow256(32) && sig.s < Pow256(32) && env.crypto.keyIsValid(key)
    requires 2 <= |key| <= MAX_ELEMENT && |h| == 20
    requires Decides(v, env, DropSignature(PublicKeyHashOut(h), Der.ToTxFormat(sig)))
    ensures 9 <= |Der.ToTxFormat(sig)| <= 73
    ensures VerifyScript(env, PublicKeyHashIn(Der.ToTxFormat(sig), key), PublicKeyHashOut(h)) == VerdictOf(
      env.crypto.sha256ripemd160(key) == h && Allowed(env.flags, sig) && v(sig.r, sig.s, sig.hashType, key))
  {
    var b := Der.ToTxFormat(sig);
    Der.WrittenSignatureIsCanonical(sig);
    SpendsIff(env, b, key, h);
    AllowedIffAdmitted(b, env.flags, sig);
    if Allowed(env.flags, sig) {
      TryReads(env, DropSignature(PublicKeyHashOut(h), b), v, b, key, sig);
    }
  }

  lemma AllowedIffAdmitted(b: bytes, flags: Flags, sig: Der.Signature)
    requires b == Der.ToTxFormat(sig) && Der.IsTxDER(b) && Der.FromTxFormat(b) == Some(sig)
    ensures SignatureEncodingOk(b, flags) <==> Allowed(flags, sig)
  {
  }

  // The part signed is the whole output, unless the hash paid to is the signature itself.
  lemma WholeOutIsSigned(sig: bytes, h: bytes)
    requires 2 <= |sig| < OP_PUSHDATA1 && |h| == 20 && sig != h
    ensures DropSignature(PublicKeyHashOut(h), sig) == PublicKeyHashOut(h)
  {
    var script, target := PublicKeyHashOut(h), ToBuffer([PushOf(sig)]);
    OneChunk(PushOf(sig));
    assert target == [|sig|] + FixedLE(|sig|, 0) + sig && target[1..] == sig;
    forall i | 0 <= i < |script| ensures !Matches(script[i], target) {
      if i == 2 {
        assert ChunkBytes(script[2]) == [20] + FixedLE(20, 0) + h && ChunkBytes(script[2])[1..] == h;
      }
    }
    DeletesNothingElse(script, target);
  }
}
