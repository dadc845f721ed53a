// Where the limits of the script machine lie, and what scripts of pushes do (script/interpreter.js, script/script.js).

module Limits {
  import opened Bytes
  import opened Script
  import opened Opcode
  import opened Machine
  import opened MultisigScripts
  import opened PublicKeyHash

  // ----- operations -----

  function Nops(n: nat): seq<Chunk> { seq(n, _ => Plain(OP_NOP)) }

  lemma NopsAreLong(n: nat)
    ensures |ToBuffer(Nops(n))| <= n
  {
    ToBufferBound(Nops(n), 1);
  }

  lemma NopDoes(env: Env, script: seq<Chunk>, pc: nat, d: Memory)
    ensures ExecOp(env, script, pc, OP_NOP, d) == Done(d, 0)
  {
  }

  lemma {:induction false} NopsRun(env: Env, run: Runner, n: nat, d: Memory, k: nat)
    requires Runs(run, env, Nops(n)) && k <= n && k <= 201
    ensures run(State(d, k, k, [])) == if n <= 201 then Some(State(d, n, n, [])) else None
    decreases n - k
  {
    var script, st := Nops(n), State(d, k, k, []);
    if k == n {
      RunEnded(env, run, script, st);
    } else if k < 201 {
      NopDoes(env, script, k + 1, d);
      OpRuns(env, run, script, st, OP_NOP, Done(d, 0));
      NopsRun(env, run, n, d, k + 1);
    } else {
      RunsBy(env, run, Opcodes(env, script), script, st);
    }
  }

  // 201 operations are run, 202 are not; 1000 elements may be left, 1001 may not.
  lemma OperationLimit(env: Env, n: nat, stack: seq<bytes>)
    requires n <= 10000
    ensures Evaluate(env, Nops(n), stack) == if n <= 201 && |stack| <= 1000 then Some(stack) else None
  {
    var check, run := CheckAndRunner(env, Nops(n));
    NopsRun(env, run, n, Memory(stack, [], 0), 0);
    NopsAreLong(n);
    EvaluatedBy(env, run, Nops(n), stack);
  }

  // ----- opcodes that are never allowed -----

  // CAT, SUBSTR, LEFT, RIGHT, INVERT, AND, OR, XOR, 2MUL, 2DIV, MUL, DIV, MOD, LSHIFT and RSHIFT; VERIF and VERNOTIF.
  lemma ForbiddenFail(env: Env, script: seq<Chunk>, op: byte, st: State)
    requires op in {126, 127, 128, 129, 131, 132, 133, 134, 141, 142, 149, 150, 151, 152, 153, 101, 102}
    ensures StepChunk(Opcodes(env, script), Plain(op), st) == None
  {
  }

  // ----- sizes -----

  // 520 bytes may be pushed, 521 may not.
  lemma ElementLimit(env: Env, b: bytes)
    requires 2 <= |b| < 10000 - 5
    ensures Evaluate(env, [PushOf(b)], []) == if |b| <= 520 then Some([b]) else None
  {
    var script := [PushOf(b)];
    ToBufferBound(script, |b| + 5);
    if |b| <= 520 {
      PushOfPushes(b);
      assert PushedBy(script[0 + 0]) == Some([b][0]);
      EvaluatePushes(env, script, [b]);
    } else {
      var check, run := CheckAndRunner(env, script);
      RunsBy(env, run, Opcodes(env, script), script, Start([]));
      EvaluatedBy(env, run, script, []);
    }
  }

  // Nothing of more than 10000 bytes is run.
  lemma ScriptLimit(env: Env, script: seq<Chunk>, stack: seq<bytes>)
    requires |ToBuffer(script)| > 10000
    ensures Evaluate(env, script, stack) == None
  {
  }

  // ----- pushes -----

  // A script that only pushes adds one element for each of its chunks and does nothing else.
  lemma PushOnlyOnlyPushes(env: Env, script: seq<Chunk>, stack: seq<bytes>)
    requires IsPushOnly(script) && Evaluate(env, script, stack).Some?
    ensures var r := Evaluate(env, script, stack).value; stack <= r && |r| == |stack| + |script|
  {
    PushOnlyRuns(env, script, Start(stack));
  }

  lemma {:induction false} PushOnlyRuns(env: Env, script: seq<Chunk>, st: State)
    requires IsPushOnly(script) && st.vfExec == [] && st.pc <= |script| && Run(env, script, st).Some?
    ensures var r := Run(env, script, st).value;
      && st.data.stack <= r.data.stack && |r.data.stack| == |st.data.stack| + (|script| - st.pc)
      && r == st.(data := st.data.(stack := r.data.stack), pc := |script|)
    decreases |script| - st.pc
  {
    if st.pc < |script| {
      RunUnfolds(env, script, st);
      PushOnlySteps(env, script, script[st.pc], st);
      PushOnlyRuns(env, script, Step(env, script, st).value);
    }
  }

  lemma PushOnlySteps(env: Env, script: seq<Chunk>, c: Chunk, st: State)
    requires c.opcode <= OP_16 && st.vfExec == [] && StepChunk(Opcodes(env, script), c, st).Some?
    ensures var next := StepChunk(Opcodes(env, script), c, st).value;
      exists b :: next == st.(data := st.data.(stack := st.data.stack + [b]), pc := st.pc + 1)
  {
  }

  // Chunks that push whatever the flags are make such a script.
  lemma PushersArePushOnly(script: seq<Chunk>)
    requires forall i :: 0 <= i < |script| ==> PushedBy(script[i]).Some?
    ensures IsPushOnly(script)
  {
  }
}
