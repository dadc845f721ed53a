// Nested IF/ELSE/ENDIF programs, and why the flat machine with its stack of flags runs them.

module Structured {
  import opened Bytes
  import opened Script
  import opened Opcode
  import opened Machine

  // A script body: opcodes and conditionals in sequence.
  datatype Prog = End | Op(chunk: Chunk, rest: Prog) | If(notIf: bool, branches: Branches, rest: Prog)
  // The branches of a conditional; every further ELSE toggles.
  datatype Branches = Last(body: Prog) | Else(body: Prog, more: Branches)

  predicate WellFormed(p: Prog)
  {
    match p
    case End => true
    case Op(c, rest) => !IsConditional(c.opcode) && WellFormed(rest)
    case If(_, b, rest) => WellFormedBranches(b) && WellFormed(rest)
  }

  predicate WellFormedBranches(b: Branches)
  {
    match b
    case Last(body) => WellFormed(body)
    case Else(body, more) => WellFormed(body) && WellFormedBranches(more)
  }

  const ELSE := Plain(OP_ELSE)
  const ENDIF := Plain(OP_ENDIF)

  function Opening(notIf: bool): Chunk { Plain(if notIf then OP_NOTIF else OP_IF) }

  function Flatten(p: Prog): seq<Chunk>
  {
    match p
    case End => []
    case Op(c, rest) => [c] + Flatten(rest)
    case If(notIf, b, rest) => [Opening(notIf)] + (FlattenBranches(b) + ([ENDIF] + Flatten(rest)))
  }

  function FlattenBranches(b: Branches): seq<Chunk>
  {
    match b
    case Last(body) => Flatten(body)
    case Else(body, more) => Flatten(body) + ([ELSE] + FlattenBranches(more))
  }

  // The memory after a run, and what the executed opcodes added to the operation counter by themselves.
  datatype Result = Ok(data: Memory, cost: nat) | Failed

  // Only the branches taken are run. Positions in the flat script matter to code separators alone.
  function Exec(exec: ChunkExec, p: Prog, pos: nat, d: Memory): Result
  {
    match p
    case End => Ok(d, 0)
    case Op(c, rest) =>
      var first := FromEffect(exec(pos + 1, c, d));
      if first.Failed? then Failed else Plus(first.cost, Exec(exec, rest, pos + 1, first.data))
    case If(notIf, b, rest) =>
      if |d.stack| < 1 then Failed
      else
        var inner := ExecBranches(exec, b, pos + 1, Taken(notIf, d), Popped(d));
        if inner.Failed? then Failed
        else Plus(inner.cost, Exec(exec, rest, pos + 1 + |FlattenBranches(b)| + 1, inner.data))
  }

  function ExecBranches(exec: ChunkExec, b: Branches, pos: nat, taken: bool, d: Memory): Result
  {
    match b
    case Last(body) => if taken then Exec(exec, body, pos, d) else Ok(d, 0)
    case Else(body, more) =>
      var first := if taken then Exec(exec, body, pos, d) else Ok(d, 0);
      if first.Failed? then Failed
      else Plus(first.cost, ExecBranches(exec, more, pos + |Flatten(body)| + 1, !taken, first.data))
  }

  function FromEffect(e: Effect): Result
  {
    match e case Fail => Failed case Done(d, cost) => Ok(d, cost)
  }

  function Plus(cost: nat, r: Result): Result
  {
    if r.Ok? then Ok(r.data, cost + r.cost) else Failed
  }

  function Taken(notIf: bool, d: Memory): bool
    requires |d.stack| >= 1
  {
    CastToBool(Top(d.stack, 1)) != notIf
  }

  function Popped(d: Memory): Memory
    requires |d.stack| >= 1
  {
    d.(stack := Replace(d.stack, 1, []))
  }

  // ----- what the flat machine checks of every chunk, executed or not -----

  predicate Allowed(c: Chunk)
  {
    !Oversized(c) && !Disabled(c.opcode) && c.opcode != OP_VERIF && c.opcode != OP_VERNOTIF
  }

  predicate AllAllowed(cs: seq<Chunk>)
  {
    cs == [] || (Allowed(cs[0]) && AllAllowed(cs[1..]))
  }

  function CountOps(cs: seq<Chunk>): nat
  {
    if cs == [] then 0 else Counts(cs[0].opcode) + CountOps(cs[1..])
  }

  lemma {:induction false} ChecksAppend(a: seq<Chunk>, b: seq<Chunk>)
    ensures AllAllowed(a + b) <==> AllAllowed(a) && AllAllowed(b)
    ensures CountOps(a + b) == CountOps(a) + CountOps(b)
  {
    if a == [] {
      assert a + b == b;
    } else {
      ChecksAppend(a[1..], b);
      assert (a + b)[1..] == a[1..] + b;
    }
  }

  // What the flat machine relies on: plain pushes cost nothing, and the two reserved conditionals always fail.
  ghost predicate Sane(exec: ChunkExec)
  {
    && (forall pc: nat, c: Chunk, d: Memory {:trigger exec(pc, c, d)} ::
          c.opcode <= OP_16 && exec(pc, c, d).Done? ==> exec(pc, c, d).cost == 0)
    && (forall pc: nat, c: Chunk, d: Memory {:trigger exec(pc, c, d)} ::
          c.opcode == OP_VERIF || c.opcode == OP_VERNOTIF ==> exec(pc, c, d) == Fail)
  }

  // ----- the flat machine on a piece of code -----

  function RunCode(exec: ChunkExec, code: seq<Chunk>, st: State): Option<State>
  {
    if code == [] then Some(st)
    else
      var next :- StepChunk(exec, code[0], st);
      RunCode(exec, code[1..], next)
  }

  lemma {:induction false} RunCodeAppend(exec: ChunkExec, a: seq<Chunk>, b: seq<Chunk>, st: State)
    ensures RunCode(exec, a + b, st) == match RunCode(exec, a, st)
      case None => None
      case Some(m) => RunCode(exec, b, m)
    decreases |a|
  {
    if a == [] {
      assert a + b == b;
    } else {
      assert (a + b)[1..] == a[1..] + b;
      var next := StepChunk(exec, a[0], st);
      if next.Some? {
        RunCodeAppend(exec, a[1..], b, next.value);
      }
    }
  }

  lemma RunOne(exec: ChunkExec, c: Chunk, st: State)
    ensures RunCode(exec, [c], st) == StepChunk(exec, c, st)
    ensures AllAllowed([c]) == Allowed(c) && CountOps([c]) == Counts(c.opcode)
  {
    assert [c][1..] == [];
  }

  // The state a result stands for: behind the code, its operations counted, unless the count passes the limit or
  // the code holds a chunk that is never allowed.
  function After(st: State, code: seq<Chunk>, r: Result, vf: seq<bool>): Option<State>
  {
    if r.Failed? || !AllAllowed(code) then None
    else
      var n := st.nOpCount + CountOps(code) + r.cost;
      if n <= MAX_OPS then Some(State(r.data, st.pc + |code|, n, vf)) else None
  }

  function AndThen(r1: Result, r2: Result): Result
  {
    if r1.Failed? then Failed else Plus(r1.cost, r2)
  }

  lemma Sequence(exec: ChunkExec, st: State, a: seq<Chunk>, r1: Result, vf: seq<bool>, b: seq<Chunk>, r2: Result, vf': seq<bool>)
    requires RunCode(exec, a, st) == After(st, a, r1, vf)
    requires var m := After(st, a, r1, vf); m.Some? ==> RunCode(exec, b, m.value) == After(m.value, b, r2, vf')
    ensures RunCode(exec, a + b, st) == After(st, a + b, AndThen(r1, r2), vf')
  {
    RunCodeAppend(exec, a, b, st);
    ChecksAppend(a, b);
  }

  lemma StepThen(exec: ChunkExec, st: State, c: Chunk, r1: Result, vf: seq<bool>, b: seq<Chunk>, r2: Result, vf': seq<bool>)
    requires StepChunk(exec, c, st) == After(st, [c], r1, vf)
    requires var m := After(st, [c], r1, vf); m.Some? ==> RunCode(exec, b, m.value) == After(m.value, b, r2, vf')
    ensures RunCode(exec, [c] + b, st) == After(st, [c] + b, AndThen(r1, r2), vf')
  {
    RunOne(exec, c, st);
    Sequence(exec, st, [c], r1, vf, b, r2, vf');
  }

  // ----- one step -----

  lemma DeadStep(exec: ChunkExec, c: Chunk, st: State)
    requires !Executing(st.vfExec) && st.nOpCount <= MAX_OPS && !IsConditional(c.opcode)
    ensures StepChunk(exec, c, st) == After(st, [c], Ok(st.data, 0), st.vfExec)
  {
    RunOne(exec, c, st);
  }

  lemma LiveStep(exec: ChunkExec, c: Chunk, st: State)
    requires Executing(st.vfExec) && st.nOpCount <= MAX_OPS && Sane(exec) && !IsConditional(c.opcode)
    ensures StepChunk(exec, c, st) == After(st, [c], FromEffect(exec(st.pc + 1, c, st.data)), st.vfExec)
  {
    RunOne(exec, c, st);
  }

  lemma ElseStep(exec: ChunkExec, st: State, outer: seq<bool>, flag: bool)
    requires st.nOpCount <= MAX_OPS && st.vfExec == outer + [flag]
    ensures StepChunk(exec, ELSE, st) == After(st, [ELSE], Ok(st.data, 0), outer + [!flag])
  {
    RunOne(exec, ELSE, st);
    assert st.vfExec[|st.vfExec| - 1 := !flag] == outer + [!flag];
  }

  lemma EndifStep(exec: ChunkExec, st: State, outer: seq<bool>, flag: bool)
    requires st.nOpCount <= MAX_OPS && st.vfExec == outer + [flag]
    ensures StepChunk(exec, ENDIF, st) == After(st, [ENDIF], Ok(st.data, 0), outer)
  {
    RunOne(exec, ENDIF, st);
    assert st.vfExec[..|st.vfExec| - 1] == outer;
  }

  lemma DeadIfStep(exec: ChunkExec, st: State, notIf: bool)
    requires st.nOpCount <= MAX_OPS && !Executing(st.vfExec)
    ensures StepChunk(exec, Opening(notIf), st) == After(st, [Opening(notIf)], Ok(st.data, 0), st.vfExec + [false])
  {
    RunOne(exec, Opening(notIf), st);
  }

  lemma LiveIfStep(exec: ChunkExec, st: State, notIf: bool)
    requires st.nOpCount <= MAX_OPS && Executing(st.vfExec)
    ensures StepChunk(exec, Opening(notIf), st) ==
      if |st.data.stack| < 1 then None
      else After(st, [Opening(notIf)], Ok(Popped(st.data), 0), st.vfExec + [Taken(notIf, st.data)])
  {
    RunOne(exec, Opening(notIf), st);
  }

  lemma ExecutingWith(vf: seq<bool>, flag: bool)
    ensures Executing(vf + [flag]) == (Executing(vf) && flag)
  {
    if !flag {
      assert (vf + [flag])[|vf|] == false;
    } else if !Executing(vf) {
      var i :| 0 <= i < |vf| && vf[i] == false;
      assert (vf + [flag])[i] == false;
    }
  }

  // The flag a conditional has when its ENDIF is reached: flipped by every ELSE.
  function FlagAtEnd(b: Branches, flag: bool): bool
  {
    match b
    case Last(_) => flag
    case Else(_, more) => FlagAtEnd(more, !flag)
  }

  // ----- dead code only counts -----

  lemma {:induction false} RunDead(exec: ChunkExec, p: Prog, st: State)
    requires WellFormed(p) && !Executing(st.vfExec) && st.nOpCount <= MAX_OPS
    ensures RunCode(exec, Flatten(p), st) == After(st, Flatten(p), Ok(st.data, 0), st.vfExec)
    decreases p, 1
  {
    var vf, same := st.vfExec, Ok(st.data, 0);
    match p
    case End =>
    case Op(c, rest) =>
      DeadStep(exec, c, st);
      var m := After(st, [c], same, vf);
      if m.Some? {
        RunDead(exec, rest, m.value);
      }
      StepThen(exec, st, c, same, vf, Flatten(rest), same, vf);
    case If(notIf, b, rest) =>
      DeadIfStep(exec, st, notIf);
      var m := After(st, [Opening(notIf)], same, vf + [false]);
      if m.Some? {
        RunDeadInside(exec, notIf, b, rest, m.value, vf);
      }
      StepThen(exec, st, Opening(notIf), same, vf + [false], FlattenBranches(b) + ([ENDIF] + Flatten(rest)), same, vf);
  }

  // From behind the opening to the end of what follows the conditional.
  lemma {:induction false} RunDeadInside(exec: ChunkExec, notIf: bool, b: Branches, rest: Prog, st: State, outer: seq<bool>)
    requires WellFormedBranches(b) && WellFormed(rest)
    requires !Executing(outer) && st.vfExec == outer + [false] && st.nOpCount <= MAX_OPS
    ensures var code := FlattenBranches(b) + ([ENDIF] + Flatten(rest));
      RunCode(exec, code, st) == After(st, code, Ok(st.data, 0), outer)
    decreases If(notIf, b, rest), 0
  {
    var same, flag := Ok(st.data, 0), FlagAtEnd(b, false);
    RunDeadBranches(exec, b, st, outer, false);
    var k := After(st, FlattenBranches(b), same, outer + [flag]);
    if k.Some? {
      EndifStep(exec, k.value, outer, flag);
      var j := After(k.value, [ENDIF], same, outer);
      if j.Some? {
        RunDead(exec, rest, j.value);
      }
      StepThen(exec, k.value, ENDIF, same, outer, Flatten(rest), same, outer);
    }
    Sequence(exec, st, FlattenBranches(b), same, outer + [flag], [ENDIF] + Flatten(rest), same, outer);
  }

  lemma {:induction false} RunDeadBranches(exec: ChunkExec, b: Branches, st: State, outer: seq<bool>, flag: bool)
    requires WellFormedBranches(b)
    requires !Executing(outer) && st.vfExec == outer + [flag] && st.nOpCount <= MAX_OPS
    ensures RunCode(exec, FlattenBranches(b), st) == After(st, FlattenBranches(b), Ok(st.data, 0), outer + [FlagAtEnd(b, flag)])
    decreases b
  {
    ExecutingWith(outer, flag);
    var same := Ok(st.data, 0);
    match b
    case Last(body) =>
      RunDead(exec, body, st);
    case Else(body, more) =>
      RunDead(exec, body, st);
      var k, vf' := After(st, Flatten(body), same, st.vfExec), outer + [FlagAtEnd(b, flag)];
      if k.Some? {
        ElseStep(exec, k.value, outer, flag);
        var j := After(k.value, [ELSE], same, outer + [!flag]);
        if j.Some? {
          RunDeadBranches(exec, more, j.value, outer, !flag);
        }
        StepThen(exec, k.value, ELSE, same, outer + [!flag], FlattenBranches(more), same, vf');
      }
      Sequence(exec, st, Flatten(body), same, st.vfExec, [ELSE] + FlattenBranches(more), same, vf');
  }

  // ----- live code does what the structured program does -----

  lemma {:induction false} RunLive(exec: ChunkExec, p: Prog, st: State)
    requires Sane(exec) && WellFormed(p) && Executing(st.vfExec) && st.nOpCount <= MAX_OPS
    ensures RunCode(exec, Flatten(p), st) == After(st, Flatten(p), Exec(exec, p, st.pc, st.data), st.vfExec)
    decreases p, 3
  {
    var vf, d := st.vfExec, st.data;
    match p
    case End =>
    case Op(c, rest) =>
      LiveStep(exec, c, st);
      var r1 := FromEffect(exec(st.pc + 1, c, d));
      var r2 := if r1.Failed? then Failed else Exec(exec, rest, st.pc + 1, r1.data);
      var m := After(st, [c], r1, vf);
      if m.Some? {
        RunLive(exec, rest, m.value);
      }
      StepThen(exec, st, c, r1, vf, Flatten(rest), r2, vf);
    case If(notIf, b, rest) =>
      RunLiveIf(exec, notIf, b, rest, st);
  }

  lemma {:induction false} RunLiveIf(exec: ChunkExec, notIf: bool, b: Branches, rest: Prog, st: State)
    requires Sane(exec) && WellFormedBranches(b) && WellFormed(rest) && Executing(st.vfExec) && st.nOpCount <= MAX_OPS
    ensures var p := If(notIf, b, rest);
      RunCode(exec, Flatten(p), st) == After(st, Flatten(p), Exec(exec, p, st.pc, st.data), st.vfExec)
    decreases If(notIf, b, rest), 2
  {
    var vf, d, code := st.vfExec, st.data, FlattenBranches(b) + ([ENDIF] + Flatten(rest));
    LiveIfStep(exec, st, notIf);
    if |d.stack| < 1 {
      assert ([Opening(notIf)] + code)[0] == Opening(notIf);
    } else {
      var taken, r1 := Taken(notIf, d), Ok(Popped(d), 0);
      RunInsideAfter(exec, notIf, b, rest, st, r1, vf, taken);
      StepThen(exec, st, Opening(notIf), r1, vf + [taken], code, ExecInside(exec, b, rest, st.pc + 1, taken, r1.data), vf);
    }
  }

  lemma {:induction false} RunInsideAfter(exec: ChunkExec, notIf: bool, b: Branches, rest: Prog, st: State, r1: Result,
                                          outer: seq<bool>, taken: bool)
    requires Sane(exec) && WellFormedBranches(b) && WellFormed(rest) && Executing(outer)
    ensures var m, code := After(st, [Opening(notIf)], r1, outer + [taken]), FlattenBranches(b) + ([ENDIF] + Flatten(rest));
      m.Some? ==> RunCode(exec, code, m.value) == After(m.value, code, ExecInside(exec, b, rest, st.pc + 1, taken, r1.data), outer)
    decreases If(notIf, b, rest), 1
  {
    var m := After(st, [Opening(notIf)], r1, outer + [taken]);
    if m.Some? {
      RunLiveInside(exec, notIf, b, rest, m.value, outer, taken);
    }
  }

  // A conditional once its branch is chosen, and what follows it.
  function ExecInside(exec: ChunkExec, b: Branches, rest: Prog, pos: nat, taken: bool, d: Memory): Result
  {
    var inner := ExecBranches(exec, b, pos, taken, d);
    if inner.Failed? then Failed
    else Plus(inner.cost, Exec(exec, rest, pos + |FlattenBranches(b)| + 1, inner.data))
  }

  lemma {:induction false} RunLiveInside(exec: ChunkExec, notIf: bool, b: Branches, rest: Prog, st: State, outer: seq<bool>, taken: bool)
    requires Sane(exec) && WellFormedBranches(b) && WellFormed(rest)
    requires Executing(outer) && st.vfExec == outer + [taken] && st.nOpCount <= MAX_OPS
    ensures var code := FlattenBranches(b) + ([ENDIF] + Flatten(rest));
      RunCode(exec, code, st) == After(st, code, ExecInside(exec, b, rest, st.pc, taken, st.data), outer)
    decreases If(notIf, b, rest), 0
  {
    var inner, flag := FlattenBranches(b), FlagAtEnd(b, taken);
    var r1 := ExecBranches(exec, b, st.pc, taken, st.data);
    RunLiveBranches(exec, b, st, outer, taken);
    var r2 := if r1.Failed? then Failed else Exec(exec, rest, st.pc + |inner| + 1, r1.data);
    RunTailAfter(exec, rest, st, inner, r1, outer, flag);
    Sequence(exec, st, inner, r1, outer + [flag], [ENDIF] + Flatten(rest), r2, outer);
    InsideIsThen(exec, b, rest, st.pc, taken, st.data);
  }

  // From the ENDIF on, wherever the branches have led.
  lemma {:induction false} RunTailAfter(exec: ChunkExec, rest: Prog, st: State, inner: seq<Chunk>, r1: Result, outer: seq<bool>, flag: bool)
    requires Sane(exec) && WellFormed(rest) && Executing(outer)
    ensures var k, tail := After(st, inner, r1, outer + [flag]), [ENDIF] + Flatten(rest);
      k.Some? ==> RunCode(exec, tail, k.value) == After(k.value, tail, Exec(exec, rest, st.pc + |inner| + 1, r1.data), outer)
    decreases rest, 5
  {
    var k := After(st, inner, r1, outer + [flag]);
    if k.Some? {
      RunTail(exec, rest, k.value, outer, flag);
    }
  }

  lemma InsideIsThen(exec: ChunkExec, b: Branches, rest: Prog, pos: nat, taken: bool, d: Memory)
    ensures var r1 := ExecBranches(exec, b, pos, taken, d);
      ExecInside(exec, b, rest, pos, taken, d)
        == AndThen(r1, if r1.Failed? then Failed else Exec(exec, rest, pos + |FlattenBranches(b)| + 1, r1.data))
  {
  }

  // From the ENDIF on.
  lemma {:induction false} RunTail(exec: ChunkExec, rest: Prog, st: State, outer: seq<bool>, flag: bool)
    requires Sane(exec) && WellFormed(rest) && Executing(outer) && st.vfExec == outer + [flag] && st.nOpCount <= MAX_OPS
    ensures RunCode(exec, [ENDIF] + Flatten(rest), st) ==
      After(st, [ENDIF] + Flatten(rest), Exec(exec, rest, st.pc + 1, st.data), outer)
    decreases rest, 4
  {
    var same := Ok(st.data, 0);
    EndifStep(exec, st, outer, flag);
    var j := After(st, [ENDIF], same, outer);
    if j.Some? {
      RunLive(exec, rest, j.value);
    }
    StepThen(exec, st, ENDIF, same, outer, Flatten(rest), Exec(exec, rest, st.pc + 1, st.data), outer);
  }

  lemma {:induction false} RunLiveBranches(exec: ChunkExec, b: Branches, st: State, outer: seq<bool>, taken: bool)
    requires Sane(exec) && WellFormedBranches(b)
    requires Executing(outer) && st.vfExec == outer + [taken] && st.nOpCount <= MAX_OPS
    ensures RunCode(exec, FlattenBranches(b), st) ==
      After(st, FlattenBranches(b), ExecBranches(exec, b, st.pc, taken, st.data), outer + [FlagAtEnd(b, taken)])
    decreases b, 1
  {
    match b
    case Last(body) =>
      RunBody(exec, body, st, outer, taken);
    case Else(body, more) =>
      RunToElse(exec, body, more, st, outer, taken);
  }

  lemma {:induction false} RunToElse(exec: ChunkExec, body: Prog, more: Branches, st: State, outer: seq<bool>, taken: bool)
    requires Sane(exec) && WellFormed(body) && WellFormedBranches(more)
    requires Executing(outer) && st.vfExec == outer + [taken] && st.nOpCount <= MAX_OPS
    ensures var code := Flatten(body) + ([ELSE] + FlattenBranches(more));
      RunCode(exec, code, st) ==
        After(st, code, ExecBranches(exec, Else(body, more), st.pc, taken, st.data), outer + [FlagAtEnd(more, !taken)])
    decreases Else(body, more), 0
  {
    RunBody(exec, body, st, outer, taken);
    var r1 := if taken then Exec(exec, body, st.pc, st.data) else Ok(st.data, 0);
    var r2 := if r1.Failed? then Failed else ExecBranches(exec, more, st.pc + |Flatten(body)| + 1, !taken, r1.data);
    var k := After(st, Flatten(body), r1, st.vfExec);
    if k.Some? {
      RunElse(exec, more, k.value, outer, taken);
    }
    Sequence(exec, st, Flatten(body), r1, st.vfExec, [ELSE] + FlattenBranches(more), r2, outer + [FlagAtEnd(more, !taken)]);
  }

  // From an ELSE on.
  lemma {:induction false} RunElse(exec: ChunkExec, more: Branches, st: State, outer: seq<bool>, taken: bool)
    requires Sane(exec) && WellFormedBranches(more)
    requires Executing(outer) && st.vfExec == outer + [taken] && st.nOpCount <= MAX_OPS
    ensures RunCode(exec, [ELSE] + FlattenBranches(more), st) ==
      After(st, [ELSE] + FlattenBranches(more), ExecBranches(exec, more, st.pc + 1, !taken, st.data), outer + [FlagAtEnd(more, !taken)])
    decreases more, 2
  {
    var same := Ok(st.data, 0);
    ElseStep(exec, st, outer, taken);
    var j := After(st, [ELSE], same, outer + [!taken]);
    if j.Some? {
      RunLiveBranches(exec, more, j.value, outer, !taken);
    }
    StepThen(exec, st, ELSE, same, outer + [!taken], FlattenBranches(more),
             ExecBranches(exec, more, st.pc + 1, !taken, st.data), outer + [FlagAtEnd(more, !taken)]);
  }

  // A branch body, run or skipped.
  lemma {:induction false} RunBody(exec: ChunkExec, body: Prog, st: State, outer: seq<bool>, taken: bool)
    requires Sane(exec) && WellFormed(body)
    requires Executing(outer) && st.vfExec == outer + [taken] && st.nOpCount <= MAX_OPS
    ensures RunCode(exec, Flatten(body), st) ==
      After(st, Flatten(body), if taken then Exec(exec, body, st.pc, st.data) else Ok(st.data, 0), st.vfExec)
    decreases body, 4
  {
    ExecutingWith(outer, taken);
    if taken {
      RunLive(exec, body, st);
    } else {
      RunDead(exec, body, st);
    }
  }

  // ----- every balanced script is some program -----

  // Pieces of a script that starts inside some conditionals: a branch list for each of them, then the outermost body.
  datatype Open = Outer(body: Prog) | Inner(branches: Branches, after: Open)

  function FlattenOpen(o: Open): seq<Chunk>
  {
    match o
    case Outer(body) => Flatten(body)
    case Inner(b, after) => FlattenBranches(b) + ([ENDIF] + FlattenOpen(after))
  }

  function DepthOf(o: Open): nat
  {
    match o case Outer(_) => 0 case Inner(_, after) => 1 + DepthOf(after)
  }

  predicate WellFormedOpen(o: Open)
  {
    match o
    case Outer(body) => WellFormed(body)
    case Inner(b, after) => WellFormedBranches(b) && WellFormedOpen(after)
  }

  // Conditional opcodes carry no data, as in every parsed script.
  predicate PlainConditionals(cs: seq<Chunk>)
  {
    cs == [] || ((IsConditional(cs[0].opcode) ==> cs[0].Plain?) && PlainConditionals(cs[1..]))
  }

  predicate Balanced(cs: seq<Chunk>, depth: nat)
  {
    if cs == [] then depth == 0
    else
      var op := cs[0].opcode;
      if op == OP_IF || op == OP_NOTIF then Balanced(cs[1..], depth + 1)
      else if op == OP_ELSE then depth > 0 && Balanced(cs[1..], depth)
      else if op == OP_ENDIF then depth > 0 && Balanced(cs[1..], depth - 1)
      else Balanced(cs[1..], depth)
  }

  function PrependToBranches(c: Chunk, b: Branches): Branches
  {
    match b
    case Last(body) => Last(Op(c, body))
    case Else(body, more) => Else(Op(c, body), more)
  }

  function PrependIfToBranches(notIf: bool, inner: Branches, b: Branches): Branches
  {
    match b
    case Last(body) => Last(If(notIf, inner, body))
    case Else(body, more) => Else(If(notIf, inner, body), more)
  }

  // The structure of a balanced chunk list.
  function Parse(cs: seq<Chunk>, depth: nat): (o: Open)
    requires PlainConditionals(cs) && Balanced(cs, depth)
    ensures DepthOf(o) == depth
    decreases |cs|
  {
    if cs == [] then Outer(End)
    else
      var op := cs[0].opcode;
      if op == OP_IF || op == OP_NOTIF then
        var Inner(inner, after) := Parse(cs[1..], depth + 1);
        PrependIf(op == OP_NOTIF, inner, after)
      else if op == OP_ELSE then
        var Inner(b, after) := Parse(cs[1..], depth);
        Inner(Else(End, b), after)
      else if op == OP_ENDIF then Inner(Last(End), Parse(cs[1..], depth - 1))
      else Prepend(cs[0], Parse(cs[1..], depth))
  }

  lemma {:induction false} ParseFlattens(cs: seq<Chunk>, depth: nat)
    requires PlainConditionals(cs) && Balanced(cs, depth)
    ensures WellFormedOpen(Parse(cs, depth)) && FlattenOpen(Parse(cs, depth)) == cs
    decreases |cs|
  {
    if cs != [] {
      var op, tail := cs[0].opcode, cs[1..];
      assert cs == [cs[0]] + tail;
      if op == OP_IF || op == OP_NOTIF {
        ParseFlattens(tail, depth + 1);
        var Inner(inner, after) := Parse(tail, depth + 1);
        PrependIfFlattens(op == OP_NOTIF, inner, after);
      } else if op == OP_ELSE {
        ParseFlattens(tail, depth);
        var Inner(b, after) := Parse(tail, depth);
        assert FlattenBranches(Else(End, b)) == [ELSE] + FlattenBranches(b);
      } else if op == OP_ENDIF {
        ParseFlattens(tail, depth - 1);
      } else {
        ParseFlattens(tail, depth);
        PrependFlattens(cs[0], Parse(tail, depth));
      }
    }
  }

  function PrependIf(notIf: bool, inner: Branches, after: Open): (o: Open)
    ensures DepthOf(o) == DepthOf(after)
  {
    match after
    case Outer(body) => Outer(If(notIf, inner, body))
    case Inner(b, rest) => Inner(PrependIfToBranches(notIf, inner, b), rest)
  }

  lemma PrependIfFlattens(notIf: bool, inner: Branches, after: Open)
    requires WellFormedBranches(inner) && WellFormedOpen(after)
    ensures WellFormedOpen(PrependIf(notIf, inner, after))
    ensures FlattenOpen(PrependIf(notIf, inner, after)) == [Opening(notIf)] + (FlattenBranches(inner) + ([ENDIF] + FlattenOpen(after)))
  {
    var head := [Opening(notIf)] + FlattenBranches(inner) + [ENDIF];
    if after.Inner? {
      var p := PrependIfToBranches(notIf, inner, after.branches);
      assert FlattenBranches(p) == head + FlattenBranches(after.branches) by {
        Regroup(notIf, inner, after.branches.body);
      }
      assert head + FlattenBranches(after.branches) + ([ENDIF] + FlattenOpen(after.after)) == head + FlattenOpen(after);
    } else {
      Regroup(notIf, inner, after.body);
    }
    assert head + FlattenOpen(after) == [Opening(notIf)] + (FlattenBranches(inner) + ([ENDIF] + FlattenOpen(after)));
  }

  lemma Regroup(notIf: bool, inner: Branches, body: Prog)
    ensures Flatten(If(notIf, inner, body)) == [Opening(notIf)] + FlattenBranches(inner) + [ENDIF] + Flatten(body)
  {
  }

  function Prepend(c: Chunk, o: Open): (r: Open)
    ensures DepthOf(r) == DepthOf(o)
  {
    match o
    case Outer(body) => Outer(Op(c, body))
    case Inner(b, after) => Inner(PrependToBranches(c, b), after)
  }

  lemma PrependFlattens(c: Chunk, o: Open)
    requires WellFormedOpen(o) && !IsConditional(c.opcode)
    ensures WellFormedOpen(Prepend(c, o)) && FlattenOpen(Prepend(c, o)) == [c] + FlattenOpen(o)
  {
    if o.Inner? {
      PrependToBranchesFlattens(c, o.branches);
      Regrouped([c], FlattenBranches(o.branches), [ENDIF] + FlattenOpen(o.after));
    }
  }

  lemma PrependToBranchesFlattens(c: Chunk, b: Branches)
    requires WellFormedBranches(b) && !IsConditional(c.opcode)
    ensures WellFormedBranches(PrependToBranches(c, b)) && FlattenBranches(PrependToBranches(c, b)) == [c] + FlattenBranches(b)
  {
    if b.Else? {
      Regrouped([c], Flatten(b.body), [ELSE] + FlattenBranches(b.more));
    }
  }

  lemma Regrouped(x: seq<Chunk>, y: seq<Chunk>, z: seq<Chunk>)
    ensures (x + y) + z == x + (y + z)
  {
  }

  // A run that closes every conditional was over a balanced script.
  lemma {:induction false} RunIsBalanced(exec: ChunkExec, cs: seq<Chunk>, st: State)
    requires RunCode(exec, cs, st).Some? && RunCode(exec, cs, st).value.vfExec == []
    ensures Balanced(cs, |st.vfExec|)
    decreases |cs|
  {
    if cs != [] {
      RunIsBalanced(exec, cs[1..], StepChunk(exec, cs[0], st).value);
    }
  }

  // ----- whole evaluations -----

  lemma PushesCostNothing(env: Env, script: seq<Chunk>, pc: nat, c: Chunk, d: Memory)
    requires c.opcode <= OP_16
    ensures ExecChunk(env, script, pc, c, d).Done? ==> ExecChunk(env, script, pc, c, d).cost == 0
  {
  }

  lemma ReservedFails(env: Env, script: seq<Chunk>, pc: nat, c: Chunk, d: Memory)
    requires c.opcode == OP_VERIF || c.opcode == OP_VERNOTIF
    ensures ExecChunk(env, script, pc, c, d) == Fail
  {
  }

  lemma OpcodesSane(env: Env, script: seq<Chunk>)
    ensures Sane(Opcodes(env, script))
  {
    forall pc: nat, c: Chunk, d: Memory | c.opcode <= OP_16 && Opcodes(env, script)(pc, c, d).Done?
      ensures Opcodes(env, script)(pc, c, d).cost == 0
    {
      PushesCostNothing(env, script, pc, c, d);
    }
    forall pc: nat, c: Chunk, d: Memory | c.opcode == OP_VERIF || c.opcode == OP_VERNOTIF
      ensures Opcodes(env, script)(pc, c, d) == Fail
    {
      ReservedFails(env, script, pc, c, d);
    }
  }

  lemma {:induction false} RunIsRunCode(env: Env, script: seq<Chunk>, st: State)
    requires st.pc <= |script|
    ensures Run(env, script, st) == RunCode(Opcodes(env, script), script[st.pc..], st)
    decreases |script| - st.pc
  {
    if st.pc < |script| {
      var code := script[st.pc..];
      assert code[0] == script[st.pc] && code[1..] == script[st.pc + 1..];
      var next := Step(env, script, st);
      if next.Some? {
        RunIsRunCode(env, script, next.value);
      }
    }
  }

  // What a structured program leaves on the stack: every chunk allowed, its branches run, the limits kept.
  function EvaluateProg(env: Env, p: Prog, stack: seq<bytes>): Option<seq<bytes>>
  {
    var script := Flatten(p);
    if |ToBuffer(script)| > MAX_SCRIPT || !AllAllowed(script) then None
    else match Exec(Opcodes(env, script), p, 0, Memory(stack, [], 0))
      case Failed => None
      case Ok(d, cost) =>
        if CountOps(script) + cost > MAX_OPS || |d.stack| + |d.alt| > MAX_STACK then None else Some(d.stack)
  }

  lemma RunOfProgram(env: Env, p: Prog, script: seq<Chunk>, stack: seq<bytes>)
    requires WellFormed(p) && script == Flatten(p)
    ensures Run(env, script, Start(stack)) == After(Start(stack), script, Exec(Opcodes(env, script), p, 0, Memory(stack, [], 0)), [])
  {
    OpcodesSane(env, script);
    RunIsRunCode(env, script, Start(stack));
    assert script[0..] == script;
    RunLive(Opcodes(env, script), p, Start(stack));
  }

  lemma FinishOfProgram(env: Env, p: Prog, stack: seq<bytes>)
    ensures var script := Flatten(p);
      EvaluateProg(env, p, stack) ==
        Finish(script, After(Start(stack), script, Exec(Opcodes(env, script), p, 0, Memory(stack, [], 0)), []))
  {
  }

  // The machine with its stack of flags evaluates a flattened program exactly as the structured reading does,
  // failures included.
  lemma FlatRefinesStructured(env: Env, p: Prog, stack: seq<bytes>)
    requires WellFormed(p)
    ensures Evaluate(env, Flatten(p), stack) == EvaluateProg(env, p, stack)
  {
    RunOfProgram(env, p, Flatten(p), stack);
    FinishOfProgram(env, p, stack);
  }

  // Every script that evaluates to true is a flattened program, so the reading above covers all of them.
  lemma EvaluatedIsStructured(env: Env, script: seq<Chunk>, stack: seq<bytes>) returns (p: Prog)
    requires PlainConditionals(script) && Evaluate(env, script, stack).Some?
    ensures WellFormed(p) && Flatten(p) == script
  {
    RunIsRunCode(env, script, Start(stack));
    assert script[0..] == script;
    RunIsBalanced(Opcodes(env, script), script, Start(stack));
    ParseFlattens(script, 0);
    p := Parse(script, 0).body;
  }
}
