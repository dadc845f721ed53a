// Multisig scripts as they are built, and what the script machine makes of them.

module MultisigScripts {
  import opened Bytes
  import opened ScriptNum
  import opened Script
  import opened Opcode
  import opened Crypto
  import opened Machine
  import opened Matching

  const MAX_KEYS := 16

  // Compressed and uncompressed public keys.
  predicate KeyBytes(k: bytes)
  {
    (|k| == 33 && 2 <= k[0] <= 3) || (|k| == 65 && k[0] == 4)
  }

  predicate AllPushable(bufs: seq<bytes>) { forall b :: b in bufs ==> |b| < MAX_PUSH }

  function Pushes(bufs: seq<bytes>): seq<Chunk>
    requires AllPushable(bufs)
  {
    seq(|bufs|, i requires 0 <= i < |bufs| => PushOf(bufs[i]))
  }

  // Keys in the given order.
  function MultisigOut(m: nat, keys: seq<bytes>): seq<Chunk>
    requires m <= MAX_KEYS && |keys| <= MAX_KEYS && AllPushable(keys)
  {
    [SmallInt(m)] + Pushes(keys) + [SmallInt(|keys|), Plain(OP_CHECKMULTISIG)]
  }

  function MultisigIn(sigs: seq<bytes>): seq<Chunk>
    requires AllPushable(sigs)
  {
    [Plain(OP_0)] + Pushes(sigs)
  }

  function P2SHMultisigIn(sigs: seq<bytes>, redeem: seq<Chunk>): seq<Chunk>
    requires AllPushable(sigs) && |ToBuffer(redeem)| < MAX_PUSH
  {
    MultisigIn(sigs) + [PushOf(ToBuffer(redeem))]
  }

  function ScriptHashOut(crypto: Crypto, script: seq<Chunk>): seq<Chunk>
    requires |crypto.sha256ripemd160(ToBuffer(script))| < MAX_PUSH
  {
    [Plain(OP_HASH160), PushOf(crypto.sha256ripemd160(ToBuffer(script))), Plain(OP_EQUAL)]
  }

  // ----- runs of pushes -----

  // What a chunk pushes, whatever the flags.
  function PushedBy(c: Chunk): Option<bytes>
  {
    match c
    case Plain(op) =>
      if op == OP_0 then Some(FALSE)
      else if OP_1 <= op <= OP_16 then Some(Encode(op as int - (OP_1 as int - 1)))
      else None
    case Data(op, buf, len) =>
      if op <= OP_PUSHDATA4 && len == |buf| && |buf| <= MAX_ELEMENT && CheckMinimalPush(c) then Some(buf) else None
  }

  lemma StepPushes(env: Env, script: seq<Chunk>, st: State)
    requires st.pc < |script| && st.vfExec == [] && PushedBy(script[st.pc]).Some?
    ensures Step(env, script, st) == Some(Pushed(st, [PushedBy(script[st.pc]).value]))
  {
  }

  function Pushed(st: State, values: seq<bytes>): State
  {
    st.(data := st.data.(stack := st.data.stack + values), pc := st.pc + |values|)
  }

  ghost predicate PushAt(script: seq<Chunk>, pc: nat, values: seq<bytes>)
  {
    pc + |values| <= |script| && forall i :: 0 <= i < |values| ==> PushedBy(script[pc + i]) == Some(values[i])
  }

  lemma PushAtTail(script: seq<Chunk>, pc: nat, values: seq<bytes>)
    requires values != [] && PushAt(script, pc, values)
    ensures PushedBy(script[pc]) == Some(values[0]) && PushAt(script, pc + 1, values[1..])
  {
    assert PushedBy(script[pc + 0]) == Some(values[0]);
    forall i | 0 <= i < |values| - 1 ensures PushedBy(script[pc + 1 + i]) == Some(values[1..][i]) {
      assert PushedBy(script[pc + (i + 1)]) == Some(values[i + 1]);
    }
  }

  lemma PushedTwice(st: State, values: seq<bytes>)
    requires values != []
    ensures Pushed(Pushed(st, [values[0]]), values[1..]) == Pushed(st, values)
  {
    assert st.data.stack + [values[0]] + values[1..] == st.data.stack + values;
  }

  // What a run of the script leaves from a state.
  type Runner = State -> Option<State>

  ghost predicate Runs(run: Runner, env: Env, script: seq<Chunk>)
  {
    forall st: State {:trigger Run(env, script, st)} :: run(st) == Run(env, script, st)
  }

  lemma RunOnce(env: Env, run: Runner, script: seq<Chunk>, st: State, next: State)
    requires Runs(run, env, script) && st.pc < |script| && Step(env, script, st) == Some(next)
    ensures run(st) == run(next)
  {
    assert run(st) == Run(env, script, st) && run(next) == Run(env, script, next);
  }

  lemma PushOnce(env: Env, run: Runner, script: seq<Chunk>, st: State, value: bytes)
    requires Runs(run, env, script) && st.pc < |script| && st.vfExec == [] && PushedBy(script[st.pc]) == Some(value)
    ensures run(st) == run(Pushed(st, [value]))
  {
    StepPushes(env, script, st);
    RunOnce(env, run, script, st, Pushed(st, [value]));
  }

  // A run of pushes adds their values to the stack, in order.
  lemma {:induction false} RunPushes(env: Env, run: Runner, script: seq<Chunk>, st: State, values: seq<bytes>)
    requires Runs(run, env, script) && st.vfExec == [] && PushAt(script, st.pc, values)
    ensures run(st) == run(Pushed(st, values))
    decreases |values|
  {
    if values == [] {
      assert Pushed(st, values) == st;
    } else {
      PushAtTail(script, st.pc, values);
      PushOnce(env, run, script, st, values[0]);
      RunPushes(env, run, script, Pushed(st, [values[0]]), values[1..]);
      PushedTwice(st, values);
    }
  }

  lemma PushOfPushes(b: bytes)
    requires 2 <= |b| <= MAX_ELEMENT
    ensures PushedBy(PushOf(b)) == Some(b)
  {
  }

  lemma PushesPush(bufs: seq<bytes>)
    requires forall b :: b in bufs ==> 2 <= |b| <= MAX_ELEMENT
    ensures AllPushable(bufs) && PushAt(Pushes(bufs), 0, bufs)
  {
    forall i | 0 <= i < |bufs| ensures PushedBy(Pushes(bufs)[0 + i]) == Some(bufs[i]) {
      PushOfPushes(bufs[i]);
    }
  }

  lemma SmallIntPushes(n: nat)
    requires n <= 16
    ensures PushedBy(SmallInt(n)) == Some(Encode(n))
  {
  }

  lemma NumOfSmall(n: nat, env: Env)
    requires n <= 20
    ensures Num(Encode(n), env) == Some(n)
  {
    EncodeLength(n, 1);
    MinimalDecodingIsBijective(Encode(n), 4, n);
    DecodeEncode(n);
  }

  lemma {:induction false} ToBufferBound(cs: seq<Chunk>, k: nat)
    requires forall i :: 0 <= i < |cs| ==> |ChunkBytes(cs[i])| <= k
    ensures |ToBuffer(cs)| <= k * |cs|
  {
    if cs != [] {
      ToBufferBound(cs[1..], k);
      FirstBytes(cs);
      assert k * |cs| == k + k * |cs[1..]|;
    }
  }

  lemma FirstBytes(cs: seq<Chunk>)
    requires cs != []
    ensures ToBuffer(cs) == ChunkBytes(cs[0]) + ToBuffer(cs[1..])
  {
  }

  // ----- the multisig script -----

  // The stack a multisig script checks: the dummy and the signatures, then what its pushes leave.
  function Loaded(sigs: seq<bytes>, m: nat, keys: seq<bytes>): seq<bytes>
  {
    ([FALSE] + sigs) + ([Encode(m)] + keys + [Encode(|keys|)])
  }

  lemma OutPushes(m: nat, keys: seq<bytes>)
    requires m <= MAX_KEYS && |keys| <= MAX_KEYS && forall k :: k in keys ==> KeyBytes(k)
    ensures AllPushable(keys)
    ensures PushAt(MultisigOut(m, keys), 0, [Encode(m)] + keys + [Encode(|keys|)])
    ensures |MultisigOut(m, keys)| == |keys| + 3
  {
    PushesPush(keys);
    SmallIntPushes(m);
    SmallIntPushes(|keys|);
    var script, values := MultisigOut(m, keys), [Encode(m)] + keys + [Encode(|keys|)];
    forall i | 0 <= i < |values| ensures PushedBy(script[0 + i]) == Some(values[i]) {
      OutAt(m, keys, i);
      if 0 < i <= |keys| {
        assert PushedBy(Pushes(keys)[0 + (i - 1)]) == Some(keys[i - 1]);
      }
    }
  }

  lemma OutAt(m: nat, keys: seq<bytes>, i: nat)
    requires m <= MAX_KEYS && |keys| <= MAX_KEYS && AllPushable(keys) && i < |keys| + 2
    ensures |MultisigOut(m, keys)| == |keys| + 3
    ensures MultisigOut(m, keys)[i] ==
      if i == 0 then SmallInt(m) else if i <= |keys| then Pushes(keys)[i - 1] else SmallInt(|keys|)
  {
  }

  lemma InPushes(sigs: seq<bytes>)
    requires forall s :: s in sigs ==> 2 <= |s| <= MAX_ELEMENT
    ensures AllPushable(sigs)
    ensures PushAt(MultisigIn(sigs), 0, [FALSE] + sigs) && |MultisigIn(sigs)| == |sigs| + 1
  {
    PushesPush(sigs);
    var script, values := MultisigIn(sigs), [FALSE] + sigs;
    forall i | 0 <= i < |values| ensures PushedBy(script[0 + i]) == Some(values[i]) {
      if i > 0 {
        assert script[i] == Pushes(sigs)[0 + (i - 1)];
      }
    }
  }

  lemma CountsLoaded(env: Env, sigs: seq<bytes>, m: nat, keys: seq<bytes>)
    requires m <= |keys| <= MAX_KEYS && |sigs| <= m
    ensures MultisigCounts(env, Loaded(sigs, m, keys)) == if |sigs| == m then Some((|keys|, m)) else None
  {
    var s := Loaded(sigs, m, keys);
    NumOfSmall(|keys|, env);
    NumOfSmall(m, env);
    assert Top(s, 1) == Encode(|keys|);
    assert Top(s, |keys| + 2) == Encode(m);
  }

  lemma ArgumentsLoaded(sigs: seq<bytes>, m: nat, keys: seq<bytes>)
    requires |sigs| == m <= |keys|
    ensures var s := Loaded(sigs, m, keys);
      && |s| == |keys| + m + 3 && Top(s, |keys| + m + 3) == FALSE
      && Downwards(s, 2, |keys|) == Reverse(keys) && Downwards(s, |keys| + 3, m) == Reverse(sigs)
  {
    var s := Loaded(sigs, m, keys);
    ReverseElements(sigs);
    ReverseElements(keys);
    forall i | 0 <= i < m ensures Downwards(s, |keys| + 3, m)[i] == Reverse(sigs)[i] {
      assert Top(s, |keys| + 3 + i) == s[m - i];
    }
    forall i | 0 <= i < |keys| ensures Downwards(s, 2, |keys|)[i] == Reverse(keys)[i] {
      assert Top(s, 2 + i) == s[m + 2 + (|keys| - 1 - i)];
    }
  }

  lemma OneChunk(c: Chunk)
    ensures ToBuffer([c]) == ChunkBytes(c)
  {
    assert [c][1..] == [];
    assert ToBuffer([c]) == ChunkBytes(c) + ToBuffer([]);
  }

  // A signature never equals a key, so no chunk of the script is deleted before it is hashed.
  lemma NothingToDrop(m: nat, keys: seq<bytes>, sig: bytes)
    requires m <= MAX_KEYS && |keys| <= MAX_KEYS && forall k :: k in keys ==> KeyBytes(k)
    requires 9 <= |sig| <= 73 && sig[0] == 0x30 && AllPushable(keys)
    ensures DropSignature(MultisigOut(m, keys), sig) == MultisigOut(m, keys)
  {
    var script, target := MultisigOut(m, keys), ToBuffer([PushOf(sig)]);
    OneChunk(PushOf(sig));
    assert target == [|sig|] + FixedLE(|sig|, 0) + sig;
    assert target[1] == 0x30;
    forall i | 0 <= i < |script| ensures !Matches(script[i], target) {
      if 0 < i <= |keys| {
        assert script[i] == PushOf(keys[i - 1]) && keys[i - 1] in keys;
        assert ChunkBytes(script[i])[1] != 0x30;
      }
    }
    DeletesNothingElse(script, target);
  }

  lemma {:induction false} NothingToDropForAny(m: nat, keys: seq<bytes>, sigs: seq<bytes>)
    requires m <= MAX_KEYS && |keys| <= MAX_KEYS && forall k :: k in keys ==> KeyBytes(k)
    requires AllPushable(keys) && forall s :: s in sigs ==> 9 <= |s| <= 73 && s[0] == 0x30
    ensures DropSignatures(MultisigOut(m, keys), sigs) == MultisigOut(m, keys)
  {
    if sigs != [] {
      NothingToDrop(m, keys, sigs[0]);
      NothingToDropForAny(m, keys, sigs[1..]);
    }
  }

  // ----- evaluation -----

  // Signatures as they are written into scripts, and keys every check accepts.
  ghost predicate Presentable(env: Env, sigs: seq<bytes>, keys: seq<bytes>)
  {
    && |keys| <= MAX_KEYS
    && (forall s :: s in sigs ==> 9 <= |s| <= 73 && s[0] == 0x30)
    && (forall k :: k in keys ==> KeyBytes(k) && env.crypto.keyIsValid(k))
  }

  lemma PresentableIsPushable(env: Env, sigs: seq<bytes>, keys: seq<bytes>)
    requires Presentable(env, sigs, keys)
    ensures AllPushable(sigs) && AllPushable(keys)
  {
  }

  lemma PresentableKeysPass(env: Env, sigs: seq<bytes>, keys: seq<bytes>, sub: seq<Chunk>)
    requires Presentable(env, sigs, keys)
    ensures KeysPass(Trials(env), sub, sigs, keys)
  {
    forall i, j, k | 0 <= i < |sigs| && 0 <= j < |keys| && 0 <= k < |keys| && Trials(env)(sub, sigs[i], keys[j]) == Hit
      ensures Trials(env)(sub, sigs[i], keys[k]) != Bad
    {
      assert keys[k] in keys;
      ValidKeyPasses(env, sub, sigs[i], keys[j], keys[k]);
    }
  }

  lemma ValidKeyPasses(env: Env, sub: seq<Chunk>, sig: bytes, key: bytes, other: bytes)
    requires Try(env, sub, sig, key) == Hit && env.crypto.keyIsValid(other)
    ensures Try(env, sub, sig, other) != Bad
  {
  }

  // Enough signatures, and each of them can be given a key of its own that it verifies against, in order.
  ghost predicate Enough(trial: SigTrial, m: nat, keys: seq<bytes>, sigs: seq<bytes>)
    requires m <= MAX_KEYS && |keys| <= MAX_KEYS && AllPushable(keys)
  {
    |sigs| == m && Assignable(trial, MultisigOut(m, keys), sigs, keys)
  }

  // The check on a loaded stack: true where the signatures are enough, otherwise false or a failure.
  lemma MultisigAnswers(env: Env, trial: SigTrial, m: nat, keys: seq<bytes>, sigs: seq<bytes>)
    requires m <= |keys| && |sigs| <= m && Presentable(env, sigs, keys) && AllPushable(keys)
    requires KeysPass(trial, MultisigOut(m, keys), sigs, keys)
    ensures var e := MultisigOp(env, trial, MultisigOut(m, keys), false, Memory(Loaded(sigs, m, keys), [], 0));
      if Enough(trial, m, keys, sigs) then e == Done(Memory([TRUE], [], 0), |keys|)
      else e == Fail || e == Done(Memory([FALSE], [], 0), |keys|)
  {
    CountsLoaded(env, sigs, m, keys);
    if |sigs| == m {
      MatchesOnStack(env, trial, m, keys, sigs);
      ArgumentsLoaded(sigs, m, keys);
      AllMatched(env, |keys|, m, MatchOnStack(trial, SignedPart(MultisigOut(m, keys), 0), Loaded(sigs, m, keys), |keys|, m),
                 Memory(Loaded(sigs, m, keys), [], 0));
    }
  }

  lemma MatchesOnStack(env: Env, trial: SigTrial, m: nat, keys: seq<bytes>, sigs: seq<bytes>)
    requires m <= |keys| && |sigs| == m && Presentable(env, sigs, keys) && AllPushable(keys)
    requires KeysPass(trial, MultisigOut(m, keys), sigs, keys)
    ensures |Loaded(sigs, m, keys)| == |keys| + m + 3
    ensures MatchOnStack(trial, SignedPart(MultisigOut(m, keys), 0), Loaded(sigs, m, keys), |keys|, m) == Matched(true)
      <==> Assignable(trial, MultisigOut(m, keys), sigs, keys)
  {
    var out := MultisigOut(m, keys);
    ArgumentsLoaded(sigs, m, keys);
    SignedFromStart(out);
    MatchesReversed(env, trial, m, keys, sigs);
  }

  lemma SignedFromStart(script: seq<Chunk>)
    ensures SignedPart(script, 0) == script
  {
  }

  lemma AllMatched(env: Env, n: nat, m: nat, matched: Greedy, d: Memory)
    requires n + m + 3 == |d.stack| && Top(d.stack, n + m + 3) == FALSE
    ensures MatchedOp(env, matched, n, m, false, d) == if matched.Abort? then Fail else Done(d.(stack := [Bool(matched.all)]), n)
  {
    if matched.Matched? {
      assert Replace(d.stack, n + m + 3, [Bool(matched.all)]) == [Bool(matched.all)];
    }
  }

  lemma KeysPassReversed(trial: SigTrial, sub: seq<Chunk>, sigs: seq<bytes>, keys: seq<bytes>)
    requires KeysPass(trial, sub, sigs, keys)
    ensures KeysPass(trial, sub, Reverse(sigs), Reverse(keys))
  {
    ReverseElements(sigs);
    ReverseElements(keys);
  }

  lemma InReverse(xs: seq<bytes>)
    ensures forall x :: x in Reverse(xs) ==> x in xs
  {
    ReverseElements(xs);
    forall x | x in Reverse(xs) ensures x in xs {
      var i :| 0 <= i < |xs| && Reverse(xs)[i] == x;
      assert xs[|xs| - 1 - i] == x;
    }
  }

  lemma MatchesReversed(env: Env, trial: SigTrial, m: nat, keys: seq<bytes>, sigs: seq<bytes>)
    requires m <= |keys| && |sigs| == m && Presentable(env, sigs, keys) && AllPushable(keys)
    requires KeysPass(trial, MultisigOut(m, keys), sigs, keys)
    ensures var out := MultisigOut(m, keys);
      Assignable(trial, out, sigs, keys) <==>
      GreedyMatch(trial, DropSignatures(out, Reverse(sigs)), Reverse(sigs), Reverse(keys)) == Matched(true)
  {
    InReverse(sigs);
    NothingToDropForAny(m, keys, Reverse(sigs));
    KeysPassReversed(trial, MultisigOut(m, keys), sigs, keys);
    GreedyTrueIffAssignable(trial, MultisigOut(m, keys), Reverse(sigs), Reverse(keys));
    AssignableReversed(trial, MultisigOut(m, keys), sigs, keys);
  }

  lemma StepExecuted(exec: ChunkExec, op: byte, st: State)
    requires op > OP_16 && !Disabled(op) && !IsConditional(op) && st.vfExec == [] && st.nOpCount < MAX_OPS
    ensures var e := exec(st.pc + 1, Plain(op), st.data);
      StepChunk(exec, Plain(op), st) == if e.Fail? || (e.cost > 0 && st.nOpCount + 1 + e.cost > MAX_OPS) then None
        else Some(State(e.data, st.pc + 1, st.nOpCount + 1 + e.cost, []))
  {
  }

  // True alone is left, or the script fails or leaves false alone.
  predicate Leaves(r: Option<seq<bytes>>, ok: bool)
  {
    if ok then r == Some([TRUE]) else r == None || r == Some([FALSE])
  }

  // What the check does to a memory.
  type Check = (seq<Chunk>, Memory) -> Effect

  ghost predicate Checks(check: Check, env: Env)
  {
    forall script: seq<Chunk>, d: Memory {:trigger MultisigOp(env, Trials(env), script, false, d)} ::
      check(script, d) == MultisigOp(env, Trials(env), script, false, d)
  }

  lemma CheckAndRunner(env: Env, script: seq<Chunk>) returns (check: Check, run: Runner)
    ensures Checks(check, env) && Runs(run, env, script)
  {
    check := (s: seq<Chunk>, d: Memory) => MultisigOp(env, Trials(env), s, false, d);
    run := (st: State) => Run(env, script, st);
  }

  // A multisig script over the dummy and the signatures leaves true exactly when they are enough.
  lemma EvaluateMultisig(env: Env, m: nat, keys: seq<bytes>, sigs: seq<bytes>)
    requires m <= |keys| && |sigs| <= m && Presentable(env, sigs, keys) && AllPushable(keys)
    ensures Leaves(Evaluate(env, MultisigOut(m, keys), [FALSE] + sigs), Enough(Trials(env), m, keys, sigs))
  {
    var check, run := CheckAndRunner(env, MultisigOut(m, keys));
    LoadedAnswer(env, check, run, m, keys, sigs);
    OutIsShort(m, keys);
    FinishAnswered(MultisigOut(m, keys), run(Start([FALSE] + sigs)), Enough(Trials(env), m, keys, sigs), |keys|);
    EvaluatedBy(env, run, MultisigOut(m, keys), [FALSE] + sigs);
  }

  lemma EvaluatedBy(env: Env, run: Runner, script: seq<Chunk>, stack: seq<bytes>)
    requires Runs(run, env, script)
    ensures Evaluate(env, script, stack) == Finish(script, run(Start(stack)))
  {
    assert run(Start(stack)) == Run(env, script, Start(stack));
  }

  lemma FinishAnswered(script: seq<Chunk>, r: Option<State>, ok: bool, n: nat)
    requires Answered(r, ok, n) && |ToBuffer(script)| <= MAX_SCRIPT
    ensures Leaves(Finish(script, r), ok)
  {
  }

  lemma LoadedAnswer(env: Env, check: Check, run: Runner, m: nat, keys: seq<bytes>, sigs: seq<bytes>)
    requires m <= |keys| && |sigs| <= m && Presentable(env, sigs, keys) && AllPushable(keys)
    requires Checks(check, env) && Runs(run, env, MultisigOut(m, keys))
    ensures Answered(run(Start([FALSE] + sigs)), Enough(Trials(env), m, keys, sigs), |keys|)
  {
    LoadedRun(env, run, m, keys, sigs);
    CheckAnswers(env, check, m, keys, sigs);
    LastIsCheck(m, keys);
    LastStep(env, check, run, MultisigOut(m, keys), Loaded(sigs, m, keys), |keys|, Enough(Trials(env), m, keys, sigs));
  }

  // The pushes of the script load the stack.
  lemma LoadedRun(env: Env, run: Runner, m: nat, keys: seq<bytes>, sigs: seq<bytes>)
    requires m <= |keys| <= MAX_KEYS && AllPushable(keys) && forall k :: k in keys ==> KeyBytes(k)
    requires Runs(run, env, MultisigOut(m, keys))
    ensures run(Start([FALSE] + sigs)) == run(State(Memory(Loaded(sigs, m, keys), [], 0), |keys| + 2, 0, []))
  {
    var pushed := [Encode(m)] + keys + [Encode(|keys|)];
    OutPushes(m, keys);
    RunPushes(env, run, MultisigOut(m, keys), Start([FALSE] + sigs), pushed);
    assert Pushed(Start([FALSE] + sigs), pushed) == State(Memory(Loaded(sigs, m, keys), [], 0), |keys| + 2, 0, []);
  }

  // What the check leaves behind, if anything.
  predicate Answered(r: Option<State>, ok: bool, n: nat)
  {
    var yes, no := State(Memory([TRUE], [], 0), n + 3, 1 + n, []), State(Memory([FALSE], [], 0), n + 3, 1 + n, []);
    if ok then r == Some(yes) else r == None || r == Some(no)
  }

  // What the check alone does to the loaded stack.
  predicate Replied(e: Effect, ok: bool, n: nat)
  {
    if ok then e == Done(Memory([TRUE], [], 0), n) else e == Fail || e == Done(Memory([FALSE], [], 0), n)
  }

  lemma LastStep(env: Env, check: Check, run: Runner, out: seq<Chunk>, loaded: seq<bytes>, n: nat, ok: bool)
    requires Checks(check, env) && Runs(run, env, out) && n <= MAX_KEYS
    requires |out| == n + 3 && out[n + 2] == Plain(OP_CHECKMULTISIG)
    requires Replied(check(out, Memory(loaded, [], 0)), ok, n)
    ensures Answered(run(State(Memory(loaded, [], 0), n + 2, 0, [])), ok, n)
  {
    OpcodesExecute(env, out);
    RunOfCheck(env, check, run, Opcodes(env, out), out, State(Memory(loaded, [], 0), n + 2, 0, []));
  }

  lemma CheckAnswers(env: Env, check: Check, m: nat, keys: seq<bytes>, sigs: seq<bytes>)
    requires m <= |keys| && |sigs| <= m && Presentable(env, sigs, keys) && AllPushable(keys) && Checks(check, env)
    ensures Replied(check(MultisigOut(m, keys), Memory(Loaded(sigs, m, keys), [], 0)),
                    Enough(Trials(env), m, keys, sigs), |keys|)
  {
    PresentableKeysPass(env, sigs, keys, MultisigOut(m, keys));
    MultisigAnswers(env, Trials(env), m, keys, sigs);
    assert check(MultisigOut(m, keys), Memory(Loaded(sigs, m, keys), [], 0))
      == MultisigOp(env, Trials(env), MultisigOut(m, keys), false, Memory(Loaded(sigs, m, keys), [], 0));
  }

  lemma ExecIsCheck(env: Env, check: Check, exec: ChunkExec, script: seq<Chunk>, pc: nat, d: Memory)
    requires Checks(check, env) && Executes(exec, env, script)
    ensures exec(pc, Plain(OP_CHECKMULTISIG), d) == check(script, d)
  {
    assert exec(pc, Plain(OP_CHECKMULTISIG), d) == ExecChunk(env, script, pc, Plain(OP_CHECKMULTISIG), d);
    assert check(script, d) == MultisigOp(env, Trials(env), script, false, d);
  }

  lemma StepSame(exec: ChunkExec, other: ChunkExec, c: Chunk, st: State)
    requires exec(st.pc + 1, c, st.data) == other(st.pc + 1, c, st.data)
    ensures StepChunk(exec, c, st) == StepChunk(other, c, st)
  {
  }

  lemma RunsBy(env: Env, run: Runner, exec: ChunkExec, script: seq<Chunk>, st: State)
    requires Runs(run, env, script) && Executes(exec, env, script) && st.pc < |script|
    ensures var next := StepChunk(exec, script[st.pc], st);
      && (next.Some? ==> next.value.pc == st.pc + 1)
      && run(st) == if next.None? then None else run(next.value)
  {
    OpcodesExecute(env, script);
    assert exec(st.pc + 1, script[st.pc], st.data) == ExecChunk(env, script, st.pc + 1, script[st.pc], st.data);
    StepSame(exec, Opcodes(env, script), script[st.pc], st);
    RunUnfolds(env, script, st);
    var next := StepChunk(exec, script[st.pc], st);
    assert run(st) == Run(env, script, st);
    if next.Some? { assert run(next.value) == Run(env, script, next.value); }
  }

  lemma RunEnded(env: Env, run: Runner, script: seq<Chunk>, st: State)
    requires Runs(run, env, script) && st.pc == |script|
    ensures run(st) == Some(st)
  {
    assert run(st) == Run(env, script, st);
  }

  // A run that is down to the check is what the check does.
  lemma RunOfCheck(env: Env, check: Check, run: Runner, exec: ChunkExec, script: seq<Chunk>, st: State)
    requires Checks(check, env) && Runs(run, env, script) && Executes(exec, env, script)
    requires st.pc + 1 == |script| && script[st.pc] == Plain(OP_CHECKMULTISIG) && st.vfExec == [] && st.nOpCount == 0
    ensures var e := check(script, st.data);
      run(st) == if e.Fail? || 1 + e.cost > MAX_OPS then None else Some(State(e.data, |script|, 1 + e.cost, []))
  {
    ExecIsCheck(env, check, exec, script, st.pc + 1, st.data);
    StepExecuted(exec, OP_CHECKMULTISIG, st);
    RunsBy(env, run, exec, script, st);
    var next := StepChunk(exec, Plain(OP_CHECKMULTISIG), st);
    if next.Some? { RunEnded(env, run, script, next.value); }
  }

  lemma LastIsCheck(m: nat, keys: seq<bytes>)
    requires m <= MAX_KEYS && |keys| <= MAX_KEYS && AllPushable(keys)
    ensures |MultisigOut(m, keys)| == |keys| + 3 && MultisigOut(m, keys)[|keys| + 2] == Plain(OP_CHECKMULTISIG)
  {
  }

  lemma OutIsShort(m: nat, keys: seq<bytes>)
    requires m <= MAX_KEYS && |keys| <= MAX_KEYS && AllPushable(keys) && forall k :: k in keys ==> KeyBytes(k)
    ensures |ToBuffer(MultisigOut(m, keys))| <= 66 * 19
  {
    var out := MultisigOut(m, keys);
    forall i | 0 <= i < |out| ensures |ChunkBytes(out[i])| <= 66 {
      if 0 < i <= |keys| {
        assert out[i] == PushOf(keys[i - 1]) && keys[i - 1] in keys;
      }
    }
    ToBufferBound(out, 66);
  }

  // ----- verification -----

  lemma EvaluatePushes(env: Env, script: seq<Chunk>, values: seq<bytes>)
    requires PushAt(script, 0, values) && |script| == |values| <= MAX_STACK && |ToBuffer(script)| <= MAX_SCRIPT
    ensures Evaluate(env, script, []) == Some(values)
  {
    var check, run := CheckAndRunner(env, script);
    RunPushes(env, run, script, Start([]), values);
    assert Pushed(Start([]), values).data.stack == values;
    RunEnded(env, run, script, Pushed(Start([]), values));
    EvaluatedBy(env, run, script, []);
  }

  lemma InChunks(env: Env, sigs: seq<bytes>, keys: seq<bytes>)
    requires |sigs| <= MAX_KEYS && Presentable(env, sigs, keys)
    ensures AllPushable(sigs) && IsPushOnly(MultisigIn(sigs))
    ensures forall i :: 0 <= i < |MultisigIn(sigs)| ==> |ChunkBytes(MultisigIn(sigs)[i])| <= 74
  {
    var script := MultisigIn(sigs);
    forall i | 0 <= i < |script| ensures script[i].opcode <= OP_16 && |ChunkBytes(script[i])| <= 74 {
      if 0 < i {
        assert script[i] == PushOf(sigs[i - 1]) && sigs[i - 1] in sigs;
      }
    }
  }

  lemma EvaluateIn(env: Env, sigs: seq<bytes>, keys: seq<bytes>)
    requires |sigs| <= MAX_KEYS && Presentable(env, sigs, keys)
    ensures AllPushable(sigs) && Evaluate(env, MultisigIn(sigs), []) == Some([FALSE] + sigs)
  {
    InPushes(sigs);
    InChunks(env, sigs, keys);
    ToBufferBound(MultisigIn(sigs), 74);
    EvaluatePushes(env, MultisigIn(sigs), [FALSE] + sigs);
  }

  lemma FirstOpcode(cs: seq<Chunk>)
    requires cs != []
    ensures |ToBuffer(cs)| > 0 && ToBuffer(cs)[0] == cs[0].opcode
  {
  }

  // Bare multisig: verification answers whether the signatures are enough.
  lemma BareMultisig(env: Env, m: nat, keys: seq<bytes>, sigs: seq<bytes>)
    requires 1 <= m <= |keys| && |sigs| <= m && Presentable(env, sigs, keys) && AllPushable(keys) && AllPushable(sigs)
    ensures VerifyScript(env, MultisigIn(sigs), MultisigOut(m, keys)) == VerdictOf(Enough(Trials(env), m, keys, sigs))
  {
    EvaluateIn(env, sigs, keys);
    InChunks(env, sigs, keys);
    EvaluateMultisig(env, m, keys, sigs);
    FirstOpcode(MultisigOut(m, keys));
    BareWith(Evaluations(env), env.flags, MultisigIn(sigs), MultisigOut(m, keys), [FALSE] + sigs,
             Enough(Trials(env), m, keys, sigs));
  }

  lemma BareWith(eval: Evaluation, flags: Flags, sig: seq<Chunk>, out: seq<Chunk>, first: seq<bytes>, ok: bool)
    requires IsPushOnly(sig) && !IsScriptHashOut(out)
    requires eval(sig, []) == Some(first) && Leaves(eval(out, first), ok)
    ensures VerifyWith(eval, flags, sig, out) == VerdictOf(ok)
  {
    assert Top([TRUE], 1) == TRUE && TRUE[0] == 1;
    assert Top([FALSE], 1) == FALSE;
  }

  // ----- pay to script hash -----

  lemma OutIsParsed(m: nat, keys: seq<bytes>)
    requires 1 <= m <= |keys| <= MAX_KEYS && AllPushable(keys) && forall k :: k in keys ==> KeyBytes(k)
    ensures FromBuffer(ToBuffer(MultisigOut(m, keys))) == Some(MultisigOut(m, keys))
  {
    var out := MultisigOut(m, keys);
    forall i | 0 <= i < |out| ensures Whole(out[i]) {
      if 0 < i <= |keys| {
        assert out[i] == PushOf(keys[i - 1]) && keys[i - 1] in keys;
        PushOfIsWhole(keys[i - 1]);
      }
    }
    WholeIsParsed(out);
    ParseIffPrint(ToBuffer(out), out);
  }

  lemma HashOutLayout(crypto: Crypto, redeem: seq<Chunk>)
    requires Sound(crypto)
    ensures |crypto.sha256ripemd160(ToBuffer(redeem))| == 20
    ensures IsScriptHashOut(ScriptHashOut(crypto, redeem))
    ensures |ToBuffer(ScriptHashOut(crypto, redeem))| == 23
  {
    var h := crypto.sha256ripemd160(ToBuffer(redeem));
    var cs := ScriptHashOut(crypto, redeem);
    OneChunk(cs[2]);
    assert cs[1..] == [cs[1], cs[2]] && cs[2..] == [cs[2]];
    assert ToBuffer(cs[1..]) == ChunkBytes(cs[1]) + ToBuffer(cs[2..]);
    assert ToBuffer(cs) == ChunkBytes(cs[0]) + ToBuffer(cs[1..]);
    assert ChunkBytes(cs[1]) == [20] + FixedLE(20, 0) + h;
    assert ToBuffer(cs) == [OP_HASH160, 0x14] + h + [OP_EQUAL];
  }

  lemma ExecHash(env: Env, script: seq<Chunk>, pc: nat, d: Memory)
    requires |d.stack| >= 1
    ensures Opcodes(env, script)(pc, Plain(OP_HASH160), d)
      == Done(d.(stack := Replace(d.stack, 1, [env.crypto.sha256ripemd160(Top(d.stack, 1))])), 0)
  {
  }

  lemma ExecEqual(env: Env, script: seq<Chunk>, pc: nat, d: Memory)
    requires |d.stack| >= 2
    ensures Opcodes(env, script)(pc, Plain(OP_EQUAL), d)
      == Done(d.(stack := Replace(d.stack, 2, [Bool(Top(d.stack, 2) == Top(d.stack, 1))])), 0)
  {
  }

  // The hash of the redeem script matches the one in the output.
  lemma EvaluateHashOut(env: Env, redeem: seq<Chunk>, below: seq<bytes>)
    requires Sound(env.crypto) && |below| < MAX_STACK
    requires |env.crypto.sha256ripemd160(ToBuffer(redeem))| == 20
    ensures Evaluate(env, ScriptHashOut(env.crypto, redeem), below + [ToBuffer(redeem)]) == Some(below + [TRUE])
  {
    var script, h := ScriptHashOut(env.crypto, redeem), env.crypto.sha256ripemd160(ToBuffer(redeem));
    var s0 := Start(below + [ToBuffer(redeem)]);
    var s1 := State(Memory(below + [h], [], 0), 1, 1, []);
    var s2 := State(Memory(below + [h, h], [], 0), 2, 1, []);
    var s3 := State(Memory(below + [TRUE], [], 0), 3, 2, []);
    var check, run := CheckAndRunner(env, script);
    HashStep(env, script, s0, s1, below, ToBuffer(redeem));
    RunOnce(env, run, script, s0, s1);
    PushOfPushes(h);
    StepPushes(env, script, s1);
    assert below + [h] + [h] == below + [h, h];
    assert Pushed(s1, [h]) == s2;
    RunOnce(env, run, script, s1, s2);
    EqualStep(env, script, s2, s3, below, h);
    RunOnce(env, run, script, s2, s3);
    HashOutLayout(env.crypto, redeem);
    RunEnded(env, run, script, s3);
    EvaluatedBy(env, run, script, s0.data.stack);
  }

  lemma HashStep(env: Env, script: seq<Chunk>, st: State, next: State, below: seq<bytes>, b: bytes)
    requires |script| > 0 && script[0] == Plain(OP_HASH160) && st == Start(below + [b])
    requires next == State(Memory(below + [env.crypto.sha256ripemd160(b)], [], 0), 1, 1, [])
    ensures Step(env, script, st) == Some(next)
  {
    ExecHash(env, script, 1, st.data);
    StepExecuted(Opcodes(env, script), OP_HASH160, st);
    assert Replace(below + [b], 1, [env.crypto.sha256ripemd160(b)]) == next.data.stack;
  }

  lemma EqualStep(env: Env, script: seq<Chunk>, st: State, next: State, below: seq<bytes>, h: bytes)
    requires |script| == 3 && script[2] == Plain(OP_EQUAL) && st == State(Memory(below + [h, h], [], 0), 2, 1, [])
    requires next == State(Memory(below + [TRUE], [], 0), 3, 2, [])
    ensures Step(env, script, st) == Some(next)
  {
    ExecEqual(env, script, 3, st.data);
    StepExecuted(Opcodes(env, script), OP_EQUAL, st);
    assert Replace(below + [h, h], 2, [TRUE]) == next.data.stack;
  }

  lemma EvaluateP2SHIn(env: Env, sigs: seq<bytes>, keys: seq<bytes>, redeem: seq<Chunk>)
    requires |sigs| <= MAX_KEYS && Presentable(env, sigs, keys) && 2 <= |ToBuffer(redeem)| <= MAX_ELEMENT
    ensures AllPushable(sigs) && IsPushOnly(P2SHMultisigIn(sigs, redeem))
    ensures Evaluate(env, P2SHMultisigIn(sigs, redeem), []) == Some([FALSE] + sigs + [ToBuffer(redeem)])
  {
    P2SHInPushes(env, sigs, keys, redeem);
    ToBufferBound(P2SHMultisigIn(sigs, redeem), 530);
    EvaluatePushes(env, P2SHMultisigIn(sigs, redeem), [FALSE] + sigs + [ToBuffer(redeem)]);
  }

  lemma P2SHInPushes(env: Env, sigs: seq<bytes>, keys: seq<bytes>, redeem: seq<Chunk>)
    requires |sigs| <= MAX_KEYS && Presentable(env, sigs, keys) && 2 <= |ToBuffer(redeem)| <= MAX_ELEMENT
    ensures AllPushable(sigs)
    ensures var script := P2SHMultisigIn(sigs, redeem);
      && IsPushOnly(script) && |script| == |sigs| + 2
      && PushAt(script, 0, [FALSE] + sigs + [ToBuffer(redeem)])
      && forall i :: 0 <= i < |script| ==> |ChunkBytes(script[i])| <= 530
  {
    InPushes(sigs);
    InChunks(env, sigs, keys);
    PushOfPushes(ToBuffer(redeem));
    var script, values := P2SHMultisigIn(sigs, redeem), [FALSE] + sigs + [ToBuffer(redeem)];
    forall i | 0 <= i < |script| ensures PushedBy(script[0 + i]) == Some(values[i]) && |ChunkBytes(script[i])| <= 530 {
      if i <= |sigs| {
        assert script[i] == MultisigIn(sigs)[i];
        assert PushedBy(MultisigIn(sigs)[0 + i]) == Some(([FALSE] + sigs)[i]);
      }
    }
  }

  // The same behind a script hash, where the redeem script is within an element and the flag asks for it.
  lemma ScriptHashMultisig(env: Env, m: nat, keys: seq<bytes>, sigs: seq<bytes>)
    requires 1 <= m <= |keys| && |sigs| <= m && Presentable(env, sigs, keys) && AllPushable(keys) && AllPushable(sigs)
    requires Sound(env.crypto) && |ToBuffer(MultisigOut(m, keys))| <= MAX_ELEMENT
    requires |env.crypto.sha256ripemd160(ToBuffer(MultisigOut(m, keys)))| == 20
    ensures VerifyScript(env, P2SHMultisigIn(sigs, MultisigOut(m, keys)), ScriptHashOut(env.crypto, MultisigOut(m, keys)))
      == VerdictOf(env.flags.p2sh ==> Enough(Trials(env), m, keys, sigs))
  {
    var redeem := MultisigOut(m, keys);
    TwoChunks(redeem);
    EvaluateP2SHIn(env, sigs, keys, redeem);
    EvaluateHashOut(env, redeem, [FALSE] + sigs);
    HashOutLayout(env.crypto, redeem);
    OutIsParsed(m, keys);
    EvaluateMultisig(env, m, keys, sigs);
    ScriptHashWith(Evaluations(env), env.flags, P2SHMultisigIn(sigs, redeem), ScriptHashOut(env.crypto, redeem),
                   [FALSE] + sigs, redeem, Enough(Trials(env), m, keys, sigs));
  }

  lemma TwoChunks(cs: seq<Chunk>)
    requires |cs| >= 2
    ensures |ToBuffer(cs)| >= 2
  {
    assert ToBuffer(cs) == ChunkBytes(cs[0]) + ToBuffer(cs[1..]);
    FirstOpcode(cs[1..]);
  }

  lemma ScriptHashWith(eval: Evaluation, flags: Flags, sig: seq<Chunk>, out: seq<Chunk>, below: seq<bytes>,
                       redeem: seq<Chunk>, ok: bool)
    requires IsPushOnly(sig) && IsScriptHashOut(out) && FromBuffer(ToBuffer(redeem)) == Some(redeem)
    requires eval(sig, []) == Some(below + [ToBuffer(redeem)])
    requires eval(out, below + [ToBuffer(redeem)]) == Some(below + [TRUE])
    requires Leaves(eval(redeem, below), ok)
    ensures VerifyWith(eval, flags, sig, out) == VerdictOf(flags.p2sh ==> ok)
  {
    var first, second := below + [ToBuffer(redeem)], below + [TRUE];
    assert Top(first, 1) == ToBuffer(redeem) && Replace(first, 1, []) == below;
    assert Top(second, 1) == TRUE && TRUE[0] == 1;
    assert Top([TRUE], 1) == TRUE && Top([FALSE], 1) == FALSE;
  }
}
