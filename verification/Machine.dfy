// What the script machine computes: one step, a run, a whole verification (script/interpreter.js).
// Hash functions, public key parsing and the curve equation are parameters.

module Crypto {
  import opened Bytes

  datatype Crypto = Crypto(
    ripemd160: bytes -> bytes,
    sha1: bytes -> bytes,
    sha256: bytes -> bytes,
    keyIsValid: bytes -> bool,   // strict public key encoding
    keyParses: bytes -> bool,    // the looser encoding the signature opcodes read
    ecdsa: (nat, nat, nat, bytes) -> bool)   // of a number: signature and key fit it
  {
    function sha256sha256(b: bytes): bytes { sha256(sha256(b)) }
    function sha256ripemd160(b: bytes): bytes { ripemd160(sha256(b)) }
  }

  ghost predicate Sound(c: Crypto)
  {
    && (forall b {:trigger c.ripemd160(b)} :: |c.ripemd160(b)| == 20)
    && (forall b {:trigger c.sha1(b)} :: |c.sha1(b)| == 20)
    && (forall b {:trigger c.sha256(b)} :: |c.sha256(b)| == 32)
    && (forall b :: c.keyIsValid(b) ==> c.keyParses(b))
    && (forall e: nat, r: nat, s: nat, k: bytes {:trigger c.ecdsa(e, r, s, k)} ::
          c.ecdsa(e, r, s, k) ==> 0 < r < Pow256(32) && 0 < s < Pow256(32))
  }
}

module Machine {
  import opened Bytes
  import opened ScriptNum
  import opened Script
  import opened Opcode
  import opened Transactions
  import opened Sighash
  import opened Crypto
  import Der

  datatype Flags = Flags(p2sh: bool, strictEnc: bool, derSig: bool, lowS: bool, nullDummy: bool, sigPushOnly: bool,
                         minimalData: bool, discourageNops: bool, checkLockTime: bool)

  datatype Env = Env(crypto: Crypto, flags: Flags, tx: Tx, nin: nat)

  // Both stacks, tops last, and where the signed part of the script begins.
  datatype Memory = Memory(stack: seq<bytes>, alt: seq<bytes>, sep: nat)

  // Fail stands for `return false` as well as for a thrown exception: evaluate turns both into false.
  // A cost is what an opcode adds to the operation counter by itself.
  datatype Effect = Done(data: Memory, cost: nat) | Fail

  const TRUE: bytes := [1]
  const FALSE: bytes := []
  const MAX_ELEMENT := 520
  const MAX_OPS := 201
  const MAX_STACK := 1000
  const MAX_SCRIPT := 10000
  const LOCKTIME_THRESHOLD := 500000000
  const HALF_ORDER := 0x7FFFFFFFFFFFFFFFFFFFFFFFFFFFFFFF5D576E7357A4501DDFE92F46681B20A0
  function SingleBugHash(): bytes { seq(31, _ => 0) + [1] }

  function Bool(b: bool): bytes { if b then TRUE else FALSE }

  // Any non-zero byte makes it true, except a lone sign bit at the end.
  function CastToBool(b: bytes): bool
  {
    exists i :: 0 <= i < |b| && b[i] != 0 && !(i == |b| - 1 && b[i] == 0x80)
  }

  function Num(b: bytes, env: Env): Option<int> { FromScriptNum(b, env.flags.minimalData, 4) }

  // ----- signatures -----

  predicate HasLowS(sig: Der.Signature) { 1 <= sig.s <= HALF_ORDER }
  predicate HasDefinedHashType(sig: Der.Signature) { 1 <= sig.hashType % 128 <= 3 }

  predicate SignatureEncodingOk(buf: bytes, flags: Flags)
  {
    if (flags.derSig || flags.lowS || flags.strictEnc) && !Der.IsTxDER(buf) then false
    else if flags.lowS then Der.FromTxFormat(buf).Some? && HasLowS(Der.FromTxFormat(buf).value)
    else if flags.strictEnc then Der.FromTxFormat(buf).Some? && HasDefinedHashType(Der.FromTxFormat(buf).value)
    else true
  }

  predicate PubkeyEncodingOk(buf: bytes, env: Env)
  {
    env.flags.strictEnc ==> env.crypto.keyIsValid(buf)
  }

  // The hash of what is signed; nothing where the code throws.
  function DigestHash(crypto: Crypto, tx: Tx, hashType: int, nin: nat, subscript: seq<Chunk>): Option<bytes>
  {
    match SighashData(tx, hashType, nin, subscript)
    case NoDigest => None
    case SingleBug => Some(SingleBugHash())
    case Preimage(data) => Some(Reverse(crypto.sha256sha256(data)))
  }

  predicate Verifies(crypto: Crypto, tx: Tx, r: nat, s: nat, hashType: int, key: bytes, nin: nat, subscript: seq<Chunk>)
  {
    var h := DigestHash(crypto, tx, hashType, nin, subscript);
    h.Some? && crypto.ecdsa(BigEndian(Reverse(h.value)), r, s, key)
  }

  // Reversed by the digest and again by the verification: the curve sees the hash as a big-endian number, and in the
  // out-of-range single case one number for every transaction.
  lemma CurveSees(crypto: Crypto, tx: Tx, r: nat, s: nat, hashType: int, key: bytes, nin: nat, subscript: seq<Chunk>)
    ensures var d := SighashData(tx, hashType, nin, subscript);
      Verifies(crypto, tx, r, s, hashType, key, nin, subscript) ==
        match d
        case NoDigest => false
        case SingleBug => crypto.ecdsa(Pow256(31), r, s, key)
        case Preimage(data) => crypto.ecdsa(BigEndian(crypto.sha256(crypto.sha256(data))), r, s, key)
  {
    match SighashData(tx, hashType, nin, subscript)
    case NoDigest =>
    case SingleBug => SingleBugNumber();
    case Preimage(data) => ReverseTwice(crypto.sha256(crypto.sha256(data)));
  }

  lemma SingleBugNumber()
    ensures BigEndian(Reverse(SingleBugHash())) == Pow256(31)
  {
    OneBehindZeros(SingleBugHash());
  }

  lemma OneBehindZeros(b: bytes)
    requires |b| > 0 && b[|b| - 1] == 1 && forall i :: 0 <= i < |b| - 1 ==> b[i] == 0
    ensures BigEndian(Reverse(b)) == Pow256(|b| - 1)
  {
    var zeros := b[..|b| - 1];
    BigEndianIsReversed(Reverse(b));
    ReverseTwice(b);
    assert b == zeros + [1];
    LittleEndianSnoc(zeros, 1);
    ValueOfZeros(zeros);
  }

  lemma {:induction false} ValueOfZeros(b: bytes)
    requires forall i :: 0 <= i < |b| ==> b[i] == 0
    ensures LittleEndian(b) == 0
  {
    if b != [] { ValueOfZeros(b[1..]); }
  }

  // What the curve says of a signature in an environment, for one script.
  type Verification = (nat, nat, int, bytes) -> bool

  ghost predicate Decides(v: Verification, env: Env, signed: seq<Chunk>)
  {
    forall r: nat, s: nat, hashType: int, key: bytes {:trigger Verifies(env.crypto, env.tx, r, s, hashType, key, env.nin, signed)} ::
      v(r, s, hashType, key) == Verifies(env.crypto, env.tx, r, s, hashType, key, env.nin, signed)
  }

  // An unreadable signature or key, or a digest that throws, counts as a signature that does not verify.
  predicate SignatureOk(env: Env, sigBuf: bytes, keyBuf: bytes, subscript: seq<Chunk>)
  {
    match Der.FromTxFormat(sigBuf)
    case None => false
    case Some(sig) =>
      && env.crypto.keyParses(keyBuf)
      && Verifies(env.crypto, env.tx, sig.r, sig.s, sig.hashType, keyBuf, env.nin, subscript)
  }

  // The subscript without a push of the signature. No element of a run reaches the size that cannot be pushed
  // (Bounds.EveryStateKept).
  function DropSignature(subscript: seq<Chunk>, sig: bytes): seq<Chunk>
  {
    if |sig| < MAX_PUSH then Deleted(subscript, ToBuffer([PushOf(sig)])) else subscript
  }

  function DropSignatures(subscript: seq<Chunk>, sigs: seq<bytes>): seq<Chunk>
    decreases |sigs|
  {
    if sigs == [] then subscript else DropSignatures(DropSignature(subscript, sigs[0]), sigs[1..])
  }

  // ----- opcodes -----

  // Pure rearrangements: how many elements from the top take part, and which of them come out, deepest first.
  function Rearrangement(op: byte): Option<(nat, seq<nat>)>
  {
    if op == OP_2DROP then Some((2, []))
    else if op == OP_2DUP then Some((2, [0, 1, 0, 1]))
    else if op == OP_3DUP then Some((3, [0, 1, 2, 0, 1, 2]))
    else if op == OP_2OVER then Some((4, [0, 1, 2, 3, 0, 1]))
    else if op == OP_2ROT then Some((6, [2, 3, 4, 5, 0, 1]))
    else if op == OP_2SWAP then Some((4, [2, 3, 0, 1]))
    else if op == OP_DROP then Some((1, []))
    else if op == OP_DUP then Some((1, [0, 0]))
    else if op == OP_NIP then Some((2, [1]))
    else if op == OP_OVER then Some((2, [0, 1, 0]))
    else if op == OP_ROT then Some((3, [1, 2, 0]))
    else if op == OP_SWAP then Some((2, [1, 0]))
    else if op == OP_TUCK then Some((2, [1, 0, 1]))
    else None
  }

  function Rearranged(s: seq<bytes>, arity: nat, outs: seq<nat>): seq<bytes>
    requires arity <= |s| && forall i :: 0 <= i < |outs| ==> outs[i] < arity
  {
    s[..|s| - arity] + seq(|outs|, i requires 0 <= i < |outs| => s[|s| - arity + outs[i]])
  }

  // Moving the two deepest of the elements to the top.
  lemma PairMoves(s: seq<bytes>, depth: nat, outs: seq<nat>)
    requires 2 <= depth <= |s| && |outs| == depth
    requires forall i :: 0 <= i < depth ==> outs[i] == if i < depth - 2 then i + 2 else i - (depth - 2)
    ensures var k := |s| - depth;
      Rearranged(s, depth, outs) == s[..k] + [] + s[k + 2..] + [s[k..k + 2][0]] + [s[k..k + 2][1]]
  {
    var k, r := |s| - depth, Rearranged(s, depth, outs);
    forall i | k <= i < |s| ensures r[i] == if i < |s| - 2 then s[i + 2] else s[i - (depth - 2)] {
      assert r[i] == s[k + outs[i - k]];
    }
  }

  lemma RearrangementInRange(op: byte)
    requires Rearrangement(op).Some?
    ensures var (arity, outs) := Rearrangement(op).value;
      1 <= arity <= 6 && |outs| <= arity + 3 && forall i :: 0 <= i < |outs| ==> outs[i] < arity
  {
  }

  predicate IsUnary(op: byte) { op == OP_1ADD || op == OP_1SUB || OP_NEGATE <= op <= OP_0NOTEQUAL }
  predicate IsBinary(op: byte) { op == OP_ADD || op == OP_SUB || OP_BOOLAND <= op <= OP_MAX }
  predicate IsHash(op: byte) { OP_RIPEMD160 <= op <= OP_HASH256 }

  function BoolNum(b: bool): int { if b then 1 else 0 }

  function UnaryResult(op: byte, n: int): int
    requires IsUnary(op)
  {
    if op == OP_1ADD then n + 1
    else if op == OP_1SUB then n - 1
    else if op == OP_NEGATE then -n
    else if op == OP_ABS then Abs(n)
    else if op == OP_NOT then BoolNum(n == 0)
    else BoolNum(n != 0)
  }

  function BinaryResult(op: byte, a: int, b: int): int
    requires IsBinary(op)
  {
    if op == OP_ADD then a + b
    else if op == OP_SUB then a - b
    else if op == OP_BOOLAND then BoolNum(a != 0 && b != 0)
    else if op == OP_BOOLOR then BoolNum(a != 0 || b != 0)
    else if op == OP_NUMEQUAL || op == OP_NUMEQUALVERIFY then BoolNum(a == b)
    else if op == OP_NUMNOTEQUAL then BoolNum(a != b)
    else if op == OP_LESSTHAN then BoolNum(a < b)
    else if op == OP_GREATERTHAN then BoolNum(a > b)
    else if op == OP_LESSTHANOREQUAL then BoolNum(a <= b)
    else if op == OP_GREATERTHANOREQUAL then BoolNum(a >= b)
    else if op == OP_MIN then if a < b then a else b
    else if a > b then a else b
  }

  function HashOf(op: byte, b: bytes, crypto: Crypto): bytes
    requires IsHash(op)
  {
    if op == OP_RIPEMD160 then crypto.ripemd160(b)
    else if op == OP_SHA1 then crypto.sha1(b)
    else if op == OP_SHA256 then crypto.sha256(b)
    else if op == OP_HASH160 then crypto.sha256ripemd160(b)
    else crypto.sha256sha256(b)
  }

  // The k-th element from the top, k = 1 for the top itself.
  function Top(s: seq<bytes>, k: nat): bytes
    requires 1 <= k <= |s|
  {
    s[|s| - k]
  }

  // The stack with its top n elements replaced.
  function Replace(s: seq<bytes>, n: nat, xs: seq<bytes>): seq<bytes>
    requires n <= |s|
  {
    s[..|s| - n] + xs
  }

  function Push(d: Memory, b: bytes): Effect { Done(d.(stack := d.stack + [b]), 0) }

  // A result that a VERIFY form consumes when true and fails on when false.
  function Outcome(d: Memory, n: nat, ok: bool, verify: bool, cost: nat): Effect
    requires n <= |d.stack|
  {
    if !verify then Done(d.(stack := Replace(d.stack, n, [Bool(ok)])), cost)
    else if ok then Done(d.(stack := Replace(d.stack, n, [])), cost)
    else Fail
  }

  predicate LockTimeSatisfied(env: Env, n: int)
  {
    && ((env.tx.nLockTime < LOCKTIME_THRESHOLD && n < LOCKTIME_THRESHOLD) ||
        (env.tx.nLockTime >= LOCKTIME_THRESHOLD && n >= LOCKTIME_THRESHOLD))
    && n <= env.tx.nLockTime
    && env.nin < |env.tx.inputs| && env.tx.inputs[env.nin].sequence != MAX_UINT32
  }

  function LockTimeOp(env: Env, d: Memory): Effect
  {
    if !env.flags.checkLockTime then (if env.flags.discourageNops then Fail else Done(d, 0))
    else if |d.stack| < 1 then Fail
    else match FromScriptNum(Top(d.stack, 1), env.flags.minimalData, 5)
      case None => Fail
      case Some(n) => if n < 0 || !LockTimeSatisfied(env, n) then Fail else Done(d, 0)
  }

  function RearrangeOp(op: byte, d: Memory): Effect
    requires Rearrangement(op).Some?
  {
    var (arity, outs) := Rearrangement(op).value;
    RearrangementInRange(op);
    if |d.stack| < arity then Fail else Done(d.(stack := Rearranged(d.stack, arity, outs)), 0)
  }

  function PickOp(op: byte, env: Env, d: Memory): Effect
  {
    if |d.stack| < 2 then Fail
    else match Num(Top(d.stack, 1), env)
      case None => Fail
      case Some(n) => PickAt(op, n, d)
  }

  // Copies or moves the element n below the top, once the number itself is gone.
  function PickAt(op: byte, n: int, d: Memory): Effect
    requires |d.stack| >= 1
  {
    var s := d.stack[..|d.stack| - 1];
    if n < 0 || n >= |s| then Fail
    else
      var at := |s| - n - 1;
      Done(d.(stack := (if op == OP_ROLL then s[..at] + s[at + 1..] else s) + [s[at]]), 0)
  }

  function UnaryOp(op: byte, env: Env, d: Memory): Effect
    requires IsUnary(op)
  {
    if |d.stack| < 1 then Fail
    else match Num(Top(d.stack, 1), env)
      case None => Fail
      case Some(n) => Done(d.(stack := Replace(d.stack, 1, [Encode(UnaryResult(op, n))])), 0)
  }

  function BinaryOp(op: byte, env: Env, d: Memory): Effect
    requires IsBinary(op)
  {
    if |d.stack| < 2 then Fail
    else match (Num(Top(d.stack, 2), env), Num(Top(d.stack, 1), env))
      case (Some(a), Some(b)) =>
        if op == OP_NUMEQUALVERIFY then Outcome(d, 2, a == b, true, 0)
        else Done(d.(stack := Replace(d.stack, 2, [Encode(BinaryResult(op, a, b))])), 0)
      case _ => Fail
  }

  function WithinOp(env: Env, d: Memory): Effect
  {
    if |d.stack| < 3 then Fail
    else match (Num(Top(d.stack, 3), env), Num(Top(d.stack, 2), env), Num(Top(d.stack, 1), env))
      case (Some(x), Some(min), Some(max)) => Outcome(d, 3, min <= x < max, false, 0)
      case _ => Fail
  }

  function SignedPart(script: seq<Chunk>, sep: nat): seq<Chunk>
  {
    if sep <= |script| then script[sep..] else []
  }

  // What comes of one signature against one key; a bad encoding of either aborts.
  datatype Trial = Bad | Hit | Miss

  type SigTrial = (seq<Chunk>, bytes, bytes) -> Trial

  function Try(env: Env, sub: seq<Chunk>, sig: bytes, key: bytes): Trial
  {
    if !SignatureEncodingOk(sig, env.flags) || !PubkeyEncodingOk(key, env) then Bad
    else if SignatureOk(env, sig, key, sub) then Hit
    else Miss
  }

  function Trials(env: Env): SigTrial
  {
    (sub: seq<Chunk>, sig: bytes, key: bytes) => Try(env, sub, sig, key)
  }

  // The trial of a signature against a key that the script machine makes in this environment.
  ghost predicate Judges(trial: SigTrial, env: Env)
  {
    forall sub: seq<Chunk>, sig: bytes, key: bytes {:trigger Try(env, sub, sig, key)} ::
      trial(sub, sig, key) == Try(env, sub, sig, key)
  }

  lemma TrialsJudge(env: Env)
    ensures Judges(Trials(env), env)
  {
  }

  function CheckSigOp(trial: SigTrial, script: seq<Chunk>, verify: bool, d: Memory): Effect
  {
    if |d.stack| < 2 then Fail
    else
      var sig, key := Top(d.stack, 2), Top(d.stack, 1);
      match trial(DropSignature(SignedPart(script, d.sep), sig), sig, key)
      case Bad => Fail
      case t => Outcome(d, 2, t.Hit?, verify, 0)
  }

  // ----- CHECKMULTISIG -----

  datatype Greedy = Abort | Matched(all: bool)

  // Signatures are tried against keys in order, each key once, until one side runs out.
  function GreedyMatch(trial: SigTrial, sub: seq<Chunk>, sigs: seq<bytes>, keys: seq<bytes>): Greedy
    requires |sigs| <= |keys|
    decreases |keys|
  {
    if sigs == [] then Matched(true)
    else match trial(sub, sigs[0], keys[0])
      case Bad => Abort
      case Hit => GreedyMatch(trial, sub, sigs[1..], keys[1..])
      case Miss => if |sigs| > |keys| - 1 then Matched(false) else GreedyMatch(trial, sub, sigs, keys[1..])
  }

  // Elements down from position `from`, first the one at `from`, counted from the top.
  function Downwards(s: seq<bytes>, from: nat, count: nat): seq<bytes>
    requires 1 <= from && from + count <= |s| + 1
  {
    seq(count, k requires 0 <= k < count => Top(s, from + k))
  }

  // How many keys and signatures the stack announces, where both are in range and all of them are there.
  function MultisigCounts(env: Env, s: seq<bytes>): (r: Option<(nat, nat)>)
    ensures r.Some? ==> r.value.1 <= r.value.0 <= 20 && r.value.0 + r.value.1 + 3 <= |s|
  {
    if |s| < 1 then None
    else match Num(Top(s, 1), env)
      case None => None
      case Some(n) =>
        if n < 0 || n > 20 || |s| < n + 2 then None
        else match Num(Top(s, n + 2), env)
          case None => None
          case Some(m) => if m < 0 || m > n || |s| < n + m + 3 then None else Some((n, m))
  }

  // The keys lie under their count, the signatures under theirs.
  function MatchOnStack(trial: SigTrial, signed: seq<Chunk>, s: seq<bytes>, n: nat, m: nat): Greedy
    requires m <= n && n + m + 3 <= |s|
  {
    var keys, sigs := Downwards(s, 2, n), Downwards(s, n + 3, m);
    GreedyMatch(trial, DropSignatures(signed, sigs), sigs, keys)
  }

  // Both counts, the keys, the signatures and one element more go; the answer comes.
  function MatchedOp(env: Env, matched: Greedy, n: nat, m: nat, verify: bool, d: Memory): Effect
    requires n + m + 3 <= |d.stack|
  {
    if matched.Abort? || (env.flags.nullDummy && Top(d.stack, n + m + 3) != []) then Fail
    else Outcome(d, n + m + 3, matched.all, verify, n)
  }

  function MultisigOp(env: Env, trial: SigTrial, script: seq<Chunk>, verify: bool, d: Memory): Effect
  {
    var s := d.stack;
    match MultisigCounts(env, s)
    case None => Fail
    case Some((n, m)) =>
      MatchedOp(env, MatchOnStack(trial, SignedPart(script, d.sep), s, n, m), n, m, verify, d)
  }

  // An opcode other than a push of data or a conditional; pc is the position after it.
  function HashOp(op: byte, crypto: Crypto, d: Memory): Effect
    requires IsHash(op)
  {
    if |d.stack| < 1 then Fail else Done(d.(stack := Replace(d.stack, 1, [HashOf(op, Top(d.stack, 1), crypto)])), 0)
  }

  function ExecOp(env: Env, script: seq<Chunk>, pc: nat, op: byte, d: Memory): Effect
  {
    var s := d.stack;
    if op == OP_1NEGATE || OP_1 <= op <= OP_16 then Push(d, Encode(op as int - (OP_1 as int - 1)))
    else if op == OP_NOP then Done(d, 0)
    else if op == OP_CHECKLOCKTIMEVERIFY then LockTimeOp(env, d)
    else if op == OP_NOP1 || OP_NOP3 <= op <= OP_NOP10 then (if env.flags.discourageNops then Fail else Done(d, 0))
    else if op == OP_VERIFY then (if |s| < 1 then Fail else Outcome(d, 1, CastToBool(Top(s, 1)), true, 0))
    else if op == OP_TOALTSTACK then
      if |s| < 1 then Fail else Done(d.(stack := Replace(s, 1, []), alt := d.alt + [Top(s, 1)]), 0)
    else if op == OP_FROMALTSTACK then
      if |d.alt| < 1 then Fail else Done(d.(stack := s + [Top(d.alt, 1)], alt := Replace(d.alt, 1, [])), 0)
    else if Rearrangement(op).Some? then RearrangeOp(op, d)
    else if op == OP_IFDUP then
      if |s| < 1 then Fail else if CastToBool(Top(s, 1)) then Push(d, Top(s, 1)) else Done(d, 0)
    else if op == OP_DEPTH then Push(d, Encode(|s|))
    else if op == OP_PICK || op == OP_ROLL then PickOp(op, env, d)
    else if op == OP_SIZE then (if |s| < 1 then Fail else Push(d, Encode(|Top(s, 1)|)))
    else if op == OP_EQUAL || op == OP_EQUALVERIFY then
      if |s| < 2 then Fail else Outcome(d, 2, Top(s, 2) == Top(s, 1), op == OP_EQUALVERIFY, 0)
    else if IsUnary(op) then UnaryOp(op, env, d)
    else if IsBinary(op) then BinaryOp(op, env, d)
    else if op == OP_WITHIN then WithinOp(env, d)
    else if IsHash(op) then HashOp(op, env.crypto, d)
    else if op == OP_CODESEPARATOR then Done(d.(sep := pc), 0)
    else if op == OP_CHECKSIG || op == OP_CHECKSIGVERIFY then CheckSigOp(Trials(env), script, op == OP_CHECKSIGVERIFY, d)
    else if op == OP_CHECKMULTISIG || op == OP_CHECKMULTISIGVERIFY then
      MultisigOp(env, Trials(env), script, op == OP_CHECKMULTISIGVERIFY, d)
    else Fail
  }

  // ----- one step of the flat machine -----

  datatype State = State(data: Memory, pc: nat, nOpCount: nat, vfExec: seq<bool>)

  predicate Oversized(c: Chunk) { c.Data? && |c.buf| > MAX_ELEMENT }
  predicate Disabled(op: byte)
  {
    || OP_CAT <= op <= OP_RIGHT || OP_INVERT <= op <= OP_XOR || op == OP_2MUL || op == OP_2DIV
    || OP_MUL <= op <= OP_RSHIFT
  }
  predicate Executing(vfExec: seq<bool>) { false !in vfExec }
  function Counts(op: byte): nat { if op > OP_16 then 1 else 0 }

  // A push of data in an executed branch.
  function PushChunk(env: Env, c: Chunk, d: Memory): Effect
  {
    if env.flags.minimalData && !CheckMinimalPush(c) then Fail
    else match c
      case Plain(_) => Push(d, FALSE)
      case Data(_, buf, len) => if len != |buf| then Fail else Push(d, buf)
  }

  // An executed chunk that is not a conditional.
  function ExecChunk(env: Env, script: seq<Chunk>, pc: nat, c: Chunk, d: Memory): Effect
  {
    if c.opcode <= OP_PUSHDATA4 then PushChunk(env, c, d) else ExecOp(env, script, pc, c.opcode, d)
  }

  predicate IsConditional(op: byte) { op == OP_IF || op == OP_NOTIF || op == OP_ELSE || op == OP_ENDIF }

  function StepConditional(op: byte, st: State): Option<State>
    requires IsConditional(op)
  {
    var vf, s := st.vfExec, st.data.stack;
    if op == OP_IF || op == OP_NOTIF then
      if !Executing(vf) then Some(st.(vfExec := vf + [false]))
      else if |s| < 1 then None
      else Some(st.(vfExec := vf + [CastToBool(Top(s, 1)) != (op == OP_NOTIF)], data := st.data.(stack := Replace(s, 1, []))))
    else if vf == [] then None
    else if op == OP_ELSE then Some(st.(vfExec := vf[|vf| - 1 := !vf[|vf| - 1]]))
    else Some(st.(vfExec := vf[..|vf| - 1]))
  }

  // What an executed chunk does, given the position after it.
  type ChunkExec = (nat, Chunk, Memory) -> Effect

  // One chunk; None where the step returns false or throws.
  function StepChunk(exec: ChunkExec, c: Chunk, st: State): Option<State>
  {
    var op := c.opcode;
    var next := st.(pc := st.pc + 1, nOpCount := st.nOpCount + Counts(op));
    if Oversized(c) then None
    else if op > OP_16 && next.nOpCount > MAX_OPS then None
    else if Disabled(op) then None
    else if IsConditional(op) then StepConditional(op, next)
    else if !Executing(st.vfExec) then (if op == OP_VERIF || op == OP_VERNOTIF then None else Some(next))
    else match exec(next.pc, c, st.data)
      case Fail => None
      case Done(d, cost) =>
        if cost > 0 && next.nOpCount + cost > MAX_OPS then None
        else Some(next.(data := d, nOpCount := next.nOpCount + cost))
  }

  function Opcodes(env: Env, script: seq<Chunk>): ChunkExec
  {
    (pc: nat, c: Chunk, d: Memory) => ExecChunk(env, script, pc, c, d)
  }

  // The effect of executed chunks in this environment.
  ghost predicate Executes(exec: ChunkExec, env: Env, script: seq<Chunk>)
  {
    forall pc: nat, c: Chunk, d: Memory {:trigger ExecChunk(env, script, pc, c, d)} ::
      exec(pc, c, d) == ExecChunk(env, script, pc, c, d)
  }

  lemma OpcodesExecute(env: Env, script: seq<Chunk>)
    ensures Executes(Opcodes(env, script), env, script)
  {
  }

  function Step(env: Env, script: seq<Chunk>, st: State): Option<State>
    requires st.pc < |script|
  {
    StepChunk(Opcodes(env, script), script[st.pc], st)
  }

  // ----- runs -----

  function Run(env: Env, script: seq<Chunk>, st: State): Option<State>
    decreases |script| - st.pc
  {
    if st.pc >= |script| then Some(st)
    else
      var next :- Step(env, script, st);
      assert next.pc == st.pc + 1;
      Run(env, script, next)
  }

  lemma RunUnfolds(env: Env, script: seq<Chunk>, st: State)
    requires st.pc < |script|
    ensures var next := StepChunk(Opcodes(env, script), script[st.pc], st);
      && (next.Some? ==> next.value.pc == st.pc + 1)
      && Run(env, script, st) == if next.None? then None else Run(env, script, next.value)
  {
  }

  function Start(stack: seq<bytes>): State { State(Memory(stack, [], 0), 0, 0, []) }

  // The stack a run leaves, if it stopped within the limits and outside every conditional.
  function Finish(script: seq<Chunk>, r: Option<State>): Option<seq<bytes>>
  {
    if |ToBuffer(script)| > MAX_SCRIPT || r.None? then None
    else if |r.value.data.stack| + |r.value.data.alt| > MAX_STACK || r.value.vfExec != [] then None
    else Some(r.value.data.stack)
  }

  // The stack a script leaves when it evaluates to true.
  function Evaluate(env: Env, script: seq<Chunk>, stack: seq<bytes>): Option<seq<bytes>>
  {
    Finish(script, Run(env, script, Start(stack)))
  }

  datatype Verdict = True | False | Throws

  function VerdictOf(b: bool): Verdict { if b then True else False }

  // How a script turns one stack into another, None where it does not succeed.
  type Evaluation = (seq<Chunk>, seq<bytes>) -> Option<seq<bytes>>

  // Two or three evaluations; only an unreadable redeem script throws out of the whole verification.
  function VerifyWith(eval: Evaluation, flags: Flags, scriptSig: seq<Chunk>, scriptPubkey: seq<Chunk>): Verdict
  {
    if flags.sigPushOnly && !IsPushOnly(scriptSig) then False
    else match eval(scriptSig, [])
      case None => False
      case Some(first) =>
        match eval(scriptPubkey, first)
        case None => False
        case Some(second) =>
          if second == [] || !CastToBool(Top(second, 1)) then False
          else if !(flags.p2sh && IsScriptHashOut(scriptPubkey)) then True
          else if !IsPushOnly(scriptSig) then False
          else RedeemWith(eval, first)
  }

  // The script on top of the stack, run on what lies below it.
  function RedeemWith(eval: Evaluation, stack: seq<bytes>): Verdict
  {
    if stack == [] then Throws
    else match FromBuffer(Top(stack, 1))
      case None => Throws
      case Some(redeem) =>
        match eval(redeem, Replace(stack, 1, []))
        case None => False
        case Some(left) => VerdictOf(left != [] && CastToBool(Top(left, 1)))
  }

  function Evaluations(env: Env): Evaluation
  {
    (script: seq<Chunk>, stack: seq<bytes>) => Evaluate(env, script, stack)
  }

  function VerifyScript(env: Env, scriptSig: seq<Chunk>, scriptPubkey: seq<Chunk>): Verdict
  {
    VerifyWith(Evaluations(env), env.flags, scriptSig, scriptPubkey)
  }
}
