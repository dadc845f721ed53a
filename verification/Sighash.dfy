// The digest a signature commits to (transaction/sighash.js).

module Sighash {
  import opened Bytes
  import opened Encoding
  import opened Script
  import opened Opcode
  import opened Transactions
  import TransactionIO

  // What is hashed: a preimage, the constant of the out-of-range single case, or nothing because the code throws.
  datatype Digest = Preimage(data: bytes) | SingleBug | NoDigest

  const SIGHASH_NONE := 2
  const SIGHASH_SINGLE := 3
  const ALL_ONES: nat := 0xffff_ffff_ffff_ffff

  // hashType & 31 and hashType & 0x80, on two's complement
  function BaseType(hashType: int): int { hashType % 32 }
  predicate AnyoneCanPay(hashType: int) { hashType % 256 >= 128 }

  // In bits: the low five say which outputs, the highest of the low eight whether other inputs count.
  lemma HashTypes(low: int, middle: int, high: int)
    requires 0 <= low < 32 && 0 <= middle < 4
    ensures BaseType(low + 32 * middle + 128 * high) == low
    ensures AnyoneCanPay(low + 32 * middle + 128 * high) <==> high % 2 == 1
  {
    assert (low + 32 * middle + 128 * high) % 32 == low by {
      assert low + 32 * middle + 128 * high == low + 32 * (middle + 4 * high);
    }
    assert (low + 32 * middle + 128 * high) % 256 == low + 32 * middle + 128 * (high % 2) by {
      assert 128 * high == 256 * (high / 2) + 128 * (high % 2);
    }
  }

  predicate IsNull(i: TxIn)
  {
    IsNullOutpoint(i.prevTxId, i.outputIndex)
  }

  // Copying an input reads its script: a null input has none, and one that does not parse throws.
  predicate Copyable(i: TxIn)
  {
    !IsNull(i) && FromBuffer(i.script).Some?
  }

  predicate AllCopyable(tx: Tx)
  {
    forall i :: i in tx.inputs ==> Copyable(i)
  }

  // The signed script as it enters the copy: parsed again, separators dropped.
  function SubscriptBytes(subscript: seq<Chunk>): Option<bytes>
  {
    var cs :- FromBuffer(ToBuffer(subscript));
    Some(ToBuffer(WithoutSeparators(cs)))
  }

  // Separators leave no trace in what is signed, and everything else stays.
  lemma SeparatorsAreNotSigned(xs: seq<Chunk>, ys: seq<Chunk>)
    requires forall i :: 0 <= i < |xs + ys| ==> Whole((xs + ys)[i])
    ensures SubscriptBytes(xs + [Plain(OP_CODESEPARATOR)] + ys) == SubscriptBytes(xs + ys)
    ensures (forall i :: 0 <= i < |xs + ys| ==> (xs + ys)[i].opcode != OP_CODESEPARATOR) ==>
      SubscriptBytes(xs + ys) == Some(ToBuffer(xs + ys))
  {
    var sep := [Plain(OP_CODESEPARATOR)];
    forall i | 0 <= i < |xs + sep + ys| ensures Whole((xs + sep + ys)[i]) {
      if i < |xs| { assert (xs + ys)[i] == xs[i]; } else if i > |xs| { assert (xs + ys)[i - 1] == ys[i - |xs| - 1]; }
    }
    SubscriptOfWhole(xs + sep + ys);
    SubscriptOfWhole(xs + ys);
    SeparatorVanishes(xs, ys);
    if forall i :: 0 <= i < |xs + ys| ==> (xs + ys)[i].opcode != OP_CODESEPARATOR { NoSeparatorsToDrop(xs + ys); }
  }

  lemma SeparatorVanishes(xs: seq<Chunk>, ys: seq<Chunk>)
    ensures WithoutSeparators(xs + [Plain(OP_CODESEPARATOR)] + ys) == WithoutSeparators(xs + ys)
  {
    var sep := [Plain(OP_CODESEPARATOR)];
    WithoutSeparatorsAppend(xs + sep, ys);
    WithoutSeparatorsSnoc(xs, sep[0]);
    WithoutSeparatorsAppend(xs, ys);
  }

  lemma SubscriptOfWhole(cs: seq<Chunk>)
    requires forall i :: 0 <= i < |cs| ==> Whole(cs[i])
    ensures SubscriptBytes(cs) == Some(ToBuffer(WithoutSeparators(cs)))
  {
    WholeIsParsed(cs);
    ParseIffPrint(ToBuffer(cs), cs);
  }

  // ----- what each hash type commits to -----

  function CommittedInput(i: TxIn, k: nat, hashType: int, nin: nat, sub: bytes): TxIn
  {
    var clears := BaseType(hashType) == SIGHASH_NONE || BaseType(hashType) == SIGHASH_SINGLE;
    TxIn(i.prevTxId, i.outputIndex, if k == nin then sub else [], if clears && k != nin then 0 else i.sequence)
  }

  function CommittedInputs(tx: Tx, hashType: int, nin: nat, sub: bytes): seq<TxIn>
    requires nin < |tx.inputs|
  {
    if AnyoneCanPay(hashType) then [CommittedInput(tx.inputs[nin], nin, hashType, nin, sub)]
    else seq(|tx.inputs|, k requires 0 <= k < |tx.inputs| => CommittedInput(tx.inputs[k], k, hashType, nin, sub))
  }

  function CommittedOutputs(tx: Tx, hashType: int, nin: nat): seq<TxOut>
    requires BaseType(hashType) == SIGHASH_SINGLE ==> nin < |tx.outputs|
  {
    if BaseType(hashType) == SIGHASH_NONE then []
    else if BaseType(hashType) == SIGHASH_SINGLE then seq(nin, _ => TxOut(ALL_ONES, [])) + [tx.outputs[nin]]
    else tx.outputs
  }

  function Committed(tx: Tx, hashType: int, nin: nat, sub: bytes): Tx
    requires nin < |tx.inputs|
    requires BaseType(hashType) == SIGHASH_SINGLE ==> nin < |tx.outputs|
  {
    tx.(inputs := CommittedInputs(tx, hashType, nin, sub), outputs := CommittedOutputs(tx, hashType, nin))
  }

  // The edits made to the parsed copy.
  function DigestOfCopy(copy: Tx, hashType: int, nin: nat, subscript: seq<Chunk>): Digest
    requires Printable(copy)
  {
    if !AllCopyable(copy) || SubscriptBytes(subscript).None? then NoDigest
    else if BaseType(hashType) == SIGHASH_SINGLE && nin <= |copy.inputs| && nin >= |copy.outputs| then SingleBug
    else if nin >= |copy.inputs| || !(-0x8000_0000 <= hashType < 0x8000_0000) then NoDigest
    else Preimage(TxBytes(Committed(copy, hashType, nin, SubscriptBytes(subscript).value)) + Int32Bytes(hashType))
  }

  // The copy is made by printing the transaction and reading it again.
  function SighashData(tx: Tx, hashType: int, nin: nat, subscript: seq<Chunk>): Digest
  {
    if !Printable(tx) then NoDigest
    else match ReadTx(TxBytes(tx), 0)
      case Threw => NoDigest
      case Got(copy, _) =>
        ReadTxMarker(TxBytes(tx), 0);
        DigestOfCopy(copy, hashType, nin, subscript)
  }

  // For a transaction that is read back as printed, the copy is the transaction itself.
  lemma CopyIsExact(tx: Tx, hashType: int, nin: nat, subscript: seq<Chunk>)
    requires TxFits(tx) && MarkerConsistent(tx)
    ensures SighashData(tx, hashType, nin, subscript) == DigestOfCopy(tx, hashType, nin, subscript)
  {
    TxRoundTrip(TxBytes(tx), 0, tx);
  }

  // ----- commitments -----

  // The same transaction up to input scripts.
  predicate SameUpToScripts(a: Tx, b: Tx)
  {
    && a.(inputs := b.inputs) == b && |a.inputs| == |b.inputs|
    && forall k :: 0 <= k < |a.inputs| ==> a.inputs[k].(script := b.inputs[k].script) == b.inputs[k]
  }

  lemma SameCommitments(a: Tx, b: Tx, hashType: int, nin: nat, sub: bytes)
    requires SameUpToScripts(a, b) && nin < |a.inputs|
    requires BaseType(hashType) == SIGHASH_SINGLE ==> nin < |a.outputs|
    ensures Committed(a, hashType, nin, sub) == Committed(b, hashType, nin, sub)
  {
    assert CommittedInputs(a, hashType, nin, sub) == CommittedInputs(b, hashType, nin, sub);
  }

  // No input script enters the digest, as long as every one of them can be read.
  lemma InputScriptsDoNotMatter(a: Tx, b: Tx, hashType: int, nin: nat, subscript: seq<Chunk>)
    requires TxFits(a) && TxFits(b) && MarkerConsistent(a) && MarkerConsistent(b)
    requires SameUpToScripts(a, b) && AllCopyable(a) && AllCopyable(b)
    ensures SighashData(a, hashType, nin, subscript) == SighashData(b, hashType, nin, subscript)
  {
    CopyIsExact(a, hashType, nin, subscript);
    CopyIsExact(b, hashType, nin, subscript);
    if DigestOfCopy(a, hashType, nin, subscript).Preimage? {
      SameCommitments(a, b, hashType, nin, SubscriptBytes(subscript).value);
    }
  }

  // An input that is null, or whose script does not parse, leaves no digest at all.
  lemma UnreadableScriptThrows(tx: Tx, hashType: int, nin: nat, subscript: seq<Chunk>)
    requires TxFits(tx) && MarkerConsistent(tx) && !AllCopyable(tx)
    ensures SighashData(tx, hashType, nin, subscript) == NoDigest
  {
    CopyIsExact(tx, hashType, nin, subscript);
  }

  // A digest of tx at nin is taken over its edited copy. With ANYONECANPAY a flagged transaction would print the witness
  // list of its first input beside the input that is signed.
  predicate Digestible(tx: Tx, hashType: int, nin: nat, subscript: seq<Chunk>)
  {
    && TxFits(tx) && MarkerConsistent(tx) && AllCopyable(tx) && (AnyoneCanPay(hashType) ==> !Flagged(tx))
    && SubscriptBytes(subscript).Some? && ShortBytes(SubscriptBytes(subscript).value)
    && nin < |tx.inputs| && (BaseType(hashType) == SIGHASH_SINGLE ==> nin < |tx.outputs|)
    && -0x8000_0000 <= hashType < 0x8000_0000
  }

  lemma CommittedFits(tx: Tx, hashType: int, nin: nat, subscript: seq<Chunk>)
    requires Digestible(tx, hashType, nin, subscript)
    ensures var c := Committed(tx, hashType, nin, SubscriptBytes(subscript).value); TxFits(c) && MarkerConsistent(c)
  {
    var sub := SubscriptBytes(subscript).value;
    var ins, outs := CommittedInputs(tx, hashType, nin, sub), CommittedOutputs(tx, hashType, nin);
    Powers();
    forall i | i in ins ensures TxInFits(i) {
      assert forall k :: 0 <= k < |tx.inputs| ==> tx.inputs[k] in tx.inputs;
    }
    forall o | o in outs ensures TxOutFits(o) {
      if BaseType(hashType) == SIGHASH_SINGLE {
        assert tx.outputs[nin] in tx.outputs;
      }
    }
  }

  lemma PreimageInjective(a: Tx, b: Tx, ta: int, tb: int)
    requires TxFits(a) && TxFits(b) && MarkerConsistent(a) && MarkerConsistent(b)
    requires -0x8000_0000 <= ta < 0x8000_0000 && -0x8000_0000 <= tb < 0x8000_0000
    requires TxBytes(a) + Int32Bytes(ta) == TxBytes(b) + Int32Bytes(tb)
    ensures a == b && ta == tb
  {
    TxBytesInjective(a, b, Int32Bytes(ta), Int32Bytes(tb));
    Int32RoundTrip(Int32Bytes(ta), 0, ta);
    Int32RoundTrip(Int32Bytes(tb), 0, tb);
  }

  // Two digests are over equal preimages exactly when they commit to the same data under the same hash type.
  lemma PreimagesEqualIffCommitmentsEqual(a: Tx, b: Tx, ta: int, tb: int, na: nat, nb: nat, sa: seq<Chunk>, sb: seq<Chunk>)
    requires Digestible(a, ta, na, sa) && Digestible(b, tb, nb, sb)
    ensures SighashData(a, ta, na, sa).Preimage? && SighashData(b, tb, nb, sb).Preimage?
    ensures SighashData(a, ta, na, sa) == SighashData(b, tb, nb, sb) <==>
      ta == tb && Committed(a, ta, na, SubscriptBytes(sa).value) == Committed(b, tb, nb, SubscriptBytes(sb).value)
  {
    CopyIsExact(a, ta, na, sa);
    CopyIsExact(b, tb, nb, sb);
    CommittedFits(a, ta, na, sa);
    CommittedFits(b, tb, nb, sb);
    var ca, cb := Committed(a, ta, na, SubscriptBytes(sa).value), Committed(b, tb, nb, SubscriptBytes(sb).value);
    if TxBytes(ca) + Int32Bytes(ta) == TxBytes(cb) + Int32Bytes(tb) {
      PreimageInjective(ca, cb, ta, tb);
    }
  }

  // ALL at a fixed index: equal preimages mean the same transaction up to input scripts, and the same signed script.
  lemma AllCommitsToEverything(a: Tx, b: Tx, hashType: int, nin: nat, sa: seq<Chunk>, sb: seq<Chunk>)
    requires Digestible(a, hashType, nin, sa) && Digestible(b, hashType, nin, sb)
    requires BaseType(hashType) != SIGHASH_NONE && BaseType(hashType) != SIGHASH_SINGLE && !AnyoneCanPay(hashType)
    ensures SighashData(a, hashType, nin, sa) == SighashData(b, hashType, nin, sb) <==>
      SameUpToScripts(a, b) && SubscriptBytes(sa) == SubscriptBytes(sb)
  {
    PreimagesEqualIffCommitmentsEqual(a, b, hashType, hashType, nin, nin, sa, sb);
    var xa, xb := SubscriptBytes(sa).value, SubscriptBytes(sb).value;
    if Committed(a, hashType, nin, xa) == Committed(b, hashType, nin, xb) {
      AllCommitmentsDetermine(a, b, hashType, nin, xa, xb);
    }
    if SameUpToScripts(a, b) && xa == xb {
      SameCommitments(a, b, hashType, nin, xa);
    }
  }

  lemma AllCommitmentsDetermine(a: Tx, b: Tx, hashType: int, nin: nat, xa: bytes, xb: bytes)
    requires nin < |a.inputs| && nin < |b.inputs|
    requires BaseType(hashType) != SIGHASH_NONE && BaseType(hashType) != SIGHASH_SINGLE && !AnyoneCanPay(hashType)
    requires Committed(a, hashType, nin, xa) == Committed(b, hashType, nin, xb)
    ensures SameUpToScripts(a, b) && xa == xb
  {
    var ia, ib := CommittedInputs(a, hashType, nin, xa), CommittedInputs(b, hashType, nin, xb);
    assert ia == ib && |a.inputs| == |b.inputs|;
    assert ia[nin].script == xa && ib[nin].script == xb;
    forall k | 0 <= k < |a.inputs| ensures a.inputs[k].(script := b.inputs[k].script) == b.inputs[k] {
      assert ia[k] == ib[k];
    }
  }

  // What every hash type commits to.
  predicate SameFrame(a: Tx, b: Tx)
  {
    && a.version == b.version && a.nLockTime == b.nLockTime
    && a.dummy == b.dummy && a.flags == b.flags && a.witnessStack == b.witnessStack
  }

  predicate SameOutpoint(i: TxIn, j: TxIn) { i.prevTxId == j.prevTxId && i.outputIndex == j.outputIndex }

  predicate SameOutpoints(a: Tx, b: Tx)
  {
    |a.inputs| == |b.inputs| && forall k :: 0 <= k < |a.inputs| ==> SameOutpoint(a.inputs[k], b.inputs[k])
  }

  // NONE: every outpoint, the own sequence number and the signed script; no output, no other sequence number.
  lemma NoneCommitsTo(a: Tx, b: Tx, hashType: int, nin: nat, sa: seq<Chunk>, sb: seq<Chunk>)
    requires Digestible(a, hashType, nin, sa) && Digestible(b, hashType, nin, sb)
    requires BaseType(hashType) == SIGHASH_NONE && !AnyoneCanPay(hashType)
    ensures SighashData(a, hashType, nin, sa) == SighashData(b, hashType, nin, sb) <==>
      && SameFrame(a, b) && SameOutpoints(a, b) && a.inputs[nin].sequence == b.inputs[nin].sequence
      && SubscriptBytes(sa) == SubscriptBytes(sb)
  {
    PreimagesEqualIffCommitmentsEqual(a, b, hashType, hashType, nin, nin, sa, sb);
    ClearedInputsDetermine(a, b, hashType, nin, SubscriptBytes(sa).value, SubscriptBytes(sb).value);
  }

  // SINGLE: the same, and the output beside the input; no other output, nor how many there are.
  lemma SingleCommitsTo(a: Tx, b: Tx, hashType: int, nin: nat, sa: seq<Chunk>, sb: seq<Chunk>)
    requires Digestible(a, hashType, nin, sa) && Digestible(b, hashType, nin, sb)
    requires BaseType(hashType) == SIGHASH_SINGLE && !AnyoneCanPay(hashType)
    ensures SighashData(a, hashType, nin, sa) == SighashData(b, hashType, nin, sb) <==>
      && SameFrame(a, b) && SameOutpoints(a, b) && a.inputs[nin].sequence == b.inputs[nin].sequence
      && a.outputs[nin] == b.outputs[nin] && SubscriptBytes(sa) == SubscriptBytes(sb)
  {
    PreimagesEqualIffCommitmentsEqual(a, b, hashType, hashType, nin, nin, sa, sb);
    ClearedInputsDetermine(a, b, hashType, nin, SubscriptBytes(sa).value, SubscriptBytes(sb).value);
    SingleOutputsDetermine(a, b, hashType, nin, nin);
  }

  // ANYONECANPAY: of the inputs only the own one, wherever it stands; of the outputs what the rest of the type says.
  lemma AnyoneCanPayCommitsTo(a: Tx, b: Tx, hashType: int, na: nat, nb: nat, sa: seq<Chunk>, sb: seq<Chunk>)
    requires Digestible(a, hashType, na, sa) && Digestible(b, hashType, nb, sb) && AnyoneCanPay(hashType)
    ensures SighashData(a, hashType, na, sa) == SighashData(b, hashType, nb, sb) <==>
      && SameFrame(a, b) && SameOutpoint(a.inputs[na], b.inputs[nb]) && a.inputs[na].sequence == b.inputs[nb].sequence
      && (if BaseType(hashType) == SIGHASH_NONE then true
          else if BaseType(hashType) == SIGHASH_SINGLE then na == nb && a.outputs[na] == b.outputs[nb]
          else a.outputs == b.outputs)
      && SubscriptBytes(sa) == SubscriptBytes(sb)
  {
    PreimagesEqualIffCommitmentsEqual(a, b, hashType, hashType, na, nb, sa, sb);
    OwnInputsDetermine(a, b, hashType, na, nb, SubscriptBytes(sa).value, SubscriptBytes(sb).value);
    if BaseType(hashType) == SIGHASH_SINGLE {
      SingleOutputsDetermine(a, b, hashType, na, nb);
    }
  }

  lemma ClearedInputsDetermine(a: Tx, b: Tx, hashType: int, nin: nat, xa: bytes, xb: bytes)
    requires nin < |a.inputs| && nin < |b.inputs| && !AnyoneCanPay(hashType)
    requires BaseType(hashType) == SIGHASH_NONE || BaseType(hashType) == SIGHASH_SINGLE
    ensures CommittedInputs(a, hashType, nin, xa) == CommittedInputs(b, hashType, nin, xb) <==>
      SameOutpoints(a, b) && a.inputs[nin].sequence == b.inputs[nin].sequence && xa == xb
  {
    var ia, ib := CommittedInputs(a, hashType, nin, xa), CommittedInputs(b, hashType, nin, xb);
    if ia == ib {
      assert |ia| == |ib| && ia[nin] == ib[nin];
      forall k | 0 <= k < |a.inputs| ensures SameOutpoint(a.inputs[k], b.inputs[k]) {
        assert ia[k] == ib[k];
      }
    }
  }

  lemma OwnInputsDetermine(a: Tx, b: Tx, hashType: int, na: nat, nb: nat, xa: bytes, xb: bytes)
    requires na < |a.inputs| && nb < |b.inputs| && AnyoneCanPay(hashType)
    ensures CommittedInputs(a, hashType, na, xa) == CommittedInputs(b, hashType, nb, xb) <==>
      SameOutpoint(a.inputs[na], b.inputs[nb]) && a.inputs[na].sequence == b.inputs[nb].sequence && xa == xb
  {
    var ia, ib := CommittedInputs(a, hashType, na, xa), CommittedInputs(b, hashType, nb, xb);
    assert ia == ib ==> ia[0] == ib[0];
  }

  lemma SingleOutputsDetermine(a: Tx, b: Tx, hashType: int, na: nat, nb: nat)
    requires BaseType(hashType) == SIGHASH_SINGLE && na < |a.outputs| && nb < |b.outputs|
    ensures CommittedOutputs(a, hashType, na) == CommittedOutputs(b, hashType, nb) <==>
      na == nb && a.outputs[na] == b.outputs[nb]
  {
    var oa, ob := CommittedOutputs(a, hashType, na), CommittedOutputs(b, hashType, nb);
    assert oa == ob ==> |oa| == |ob| && oa[na] == ob[na];
  }

  // SINGLE without an output beside the input: one constant, whatever the transaction.
  lemma OutOfRangeSingle(tx: Tx, hashType: int, nin: nat, subscript: seq<Chunk>)
    requires TxFits(tx) && MarkerConsistent(tx) && AllCopyable(tx) && SubscriptBytes(subscript).Some?
    requires BaseType(hashType) == SIGHASH_SINGLE && |tx.outputs| <= nin < |tx.inputs|
    ensures SighashData(tx, hashType, nin, subscript) == SingleBug
  {
    CopyIsExact(tx, hashType, nin, subscript);
  }

  // NONE: any outputs, and any sequence numbers of the other inputs, give the same digest.
  lemma NoneIgnoresOutputs(a: Tx, outputs: seq<TxOut>, sequences: seq<nat>, hashType: int, nin: nat, subscript: seq<Chunk>)
    requires Digestible(a, hashType, nin, subscript) && BaseType(hashType) == SIGHASH_NONE
    requires |sequences| == |a.inputs| && sequences[nin] == a.inputs[nin].sequence
    requires var b := WithSequences(a.(outputs := outputs), sequences); TxFits(b)
    ensures var b := WithSequences(a.(outputs := outputs), sequences);
      SighashData(a, hashType, nin, subscript) == SighashData(b, hashType, nin, subscript)
  {
    var b := WithSequences(a.(outputs := outputs), sequences);
    var sub := SubscriptBytes(subscript).value;
    SequencesKeepCopyable(a.(outputs := outputs), sequences);
    CopyIsExact(a, hashType, nin, subscript);
    CopyIsExact(b, hashType, nin, subscript);
    assert CommittedInputs(a, hashType, nin, sub) == CommittedInputs(b, hashType, nin, sub);
  }

  function WithSequences(tx: Tx, sequences: seq<nat>): Tx
    requires |sequences| == |tx.inputs|
  {
    tx.(inputs := seq(|tx.inputs|, k requires 0 <= k < |tx.inputs| => tx.inputs[k].(sequence := sequences[k])))
  }

  lemma SequencesKeepCopyable(tx: Tx, sequences: seq<nat>)
    requires |sequences| == |tx.inputs| && AllCopyable(tx)
    ensures AllCopyable(WithSequences(tx, sequences))
  {
    var b := WithSequences(tx, sequences);
    forall i | i in b.inputs ensures Copyable(i) {
      var k :| 0 <= k < |b.inputs| && b.inputs[k] == i;
      assert tx.inputs[k] in tx.inputs;
    }
  }

  // SINGLE: only the output beside the input counts; neither the others nor how many follow it.
  lemma SingleIgnoresOtherOutputs(a: Tx, outputs: seq<TxOut>, hashType: int, nin: nat, subscript: seq<Chunk>)
    requires Digestible(a, hashType, nin, subscript) && BaseType(hashType) == SIGHASH_SINGLE
    requires nin < |outputs| && outputs[nin] == a.outputs[nin] && TxFits(a.(outputs := outputs))
    ensures SighashData(a, hashType, nin, subscript) == SighashData(a.(outputs := outputs), hashType, nin, subscript)
  {
    var b := a.(outputs := outputs);
    CopyIsExact(a, hashType, nin, subscript);
    CopyIsExact(b, hashType, nin, subscript);
    assert CommittedInputs(a, hashType, nin, SubscriptBytes(subscript).value) == CommittedInputs(b, hashType, nin, SubscriptBytes(subscript).value);
  }

  // ANYONECANPAY: the other inputs can be anything, in any number.
  lemma AnyoneCanPayIgnoresOtherInputs(a: Tx, inputs: seq<TxIn>, hashType: int, nin: nat, subscript: seq<Chunk>)
    requires Digestible(a, hashType, nin, subscript) && AnyoneCanPay(hashType)
    requires nin < |inputs| && inputs[nin] == a.inputs[nin]
    requires TxFits(a.(inputs := inputs)) && AllCopyable(a.(inputs := inputs))
    ensures SighashData(a, hashType, nin, subscript) == SighashData(a.(inputs := inputs), hashType, nin, subscript)
  {
    CopyIsExact(a, hashType, nin, subscript);
    CopyIsExact(a.(inputs := inputs), hashType, nin, subscript);
  }

  // ----- the code: a copy edited in loops -----

  // Printing and reading again; a transaction whose marker is not consistent comes back as another one, or not at all.
  method ShallowCopy(tx: Tx) returns (copy: Option<Tx>)
    requires TxFits(tx)
    ensures copy == match ReadTx(TxBytes(tx), 0) { case Threw => None case Got(c, _) => Some(c) }
    ensures copy.Some? ==> Printable(copy.value)
    ensures MarkerConsistent(tx) ==> copy == Some(tx)
  {
    var w := new BufferWriter();
    TransactionIO.WriteTransaction(w, tx);
    var buf := w.Contents();
    assert buf == TxBytes(tx);
    TxRoundTrip(buf, 0, tx);
    var br := new BufferReader(buf);
    copy := TransactionIO.ParseTransaction(br);
    if copy.Some? { ReadTxMarker(buf, 0); }
  }

  method SignedScript(subscript: seq<Chunk>) returns (sub: Option<bytes>)
    ensures sub == SubscriptBytes(subscript)
  {
    var parsed :- ParseScript(ToBuffer(subscript));
    var sb := new ScriptBuilder(parsed);
    sb.RemoveCodeseparators();
    sub := Some(ToBuffer(sb.chunks));
  }

  // Each input is copied, which reads its script, and its script blanked.
  method BlankScripts(tx: Tx) returns (inputs: seq<TxIn>, ok: bool)
    ensures ok == AllCopyable(tx)
    ensures ok ==> |inputs| == |tx.inputs| && forall k :: 0 <= k < |inputs| ==> inputs[k] == tx.inputs[k].(script := [])
  {
    inputs := tx.inputs;
    for i := 0 to |inputs|
      invariant |inputs| == |tx.inputs|
      invariant forall k :: 0 <= k < i ==> Copyable(tx.inputs[k]) && inputs[k] == tx.inputs[k].(script := [])
      invariant forall k :: i <= k < |inputs| ==> inputs[k] == tx.inputs[k]
    {
      assert tx.inputs[i] in tx.inputs;
      var script := ParseScript(inputs[i].script);
      if IsNull(inputs[i]) || script == None { return inputs, false; }
      inputs := inputs[i := inputs[i].(script := [])];
    }
    ok := true;
  }

  method EditInputs(tx: Tx, blank: seq<TxIn>, hashType: int, nin: nat, sub: bytes) returns (inputs: seq<TxIn>)
    requires |blank| == |tx.inputs| && nin < |blank|
    requires forall k :: 0 <= k < |blank| ==> blank[k] == tx.inputs[k].(script := [])
    ensures inputs == CommittedInputs(tx, hashType, nin, sub)
  {
    inputs := blank[nin := blank[nin].(script := sub)];
    if BaseType(hashType) == SIGHASH_NONE || BaseType(hashType) == SIGHASH_SINGLE {
      for i := 0 to |inputs|
        invariant |inputs| == |tx.inputs|
        invariant forall k :: 0 <= k < i ==> inputs[k] == CommittedInput(tx.inputs[k], k, hashType, nin, sub)
        invariant forall k :: i <= k < |inputs| ==> inputs[k] == tx.inputs[k].(script := if k == nin then sub else [])
      {
        if i != nin {
          inputs := inputs[i := inputs[i].(sequence := 0)];
        }
      }
    }
    if AnyoneCanPay(hashType) {
      inputs := [inputs[nin]];
    }
  }

  method EditOutputs(tx: Tx, hashType: int, nin: nat) returns (outputs: seq<TxOut>)
    requires BaseType(hashType) == SIGHASH_SINGLE ==> nin < |tx.outputs|
    ensures outputs == CommittedOutputs(tx, hashType, nin)
  {
    outputs := tx.outputs;
    if BaseType(hashType) == SIGHASH_NONE {
      outputs := [];
    } else if BaseType(hashType) == SIGHASH_SINGLE {
      outputs := outputs[..nin + 1];
      for i := 0 to nin
        invariant |outputs| == nin + 1 && outputs[nin] == tx.outputs[nin]
        invariant forall k :: 0 <= k < i ==> outputs[k] == TxOut(ALL_ONES, [])
      {
        outputs := outputs[i := TxOut(ALL_ONES, [])];
      }
    }
  }

  method Sighash(tx: Tx, hashType: int, nin: nat, subscript: seq<Chunk>) returns (d: Digest)
    requires TxFits(tx)
    ensures d == SighashData(tx, hashType, nin, subscript)
  {
    var copied := ShallowCopy(tx);
    if copied == None { return NoDigest; }
    var txcopy := copied.value;
    var sub := SignedScript(subscript);
    if sub == None { return NoDigest; }
    var blank, ok := BlankScripts(txcopy);
    if !ok { return NoDigest; }
    var single := BaseType(hashType) == SIGHASH_SINGLE;
    if nin >= |blank| {
      // An input without fields stands at nin: printing it throws, unless the single case returns first.
      return if single && nin == |blank| && nin >= |txcopy.outputs| then SingleBug else NoDigest;
    }
    if single && nin >= |txcopy.outputs| { return SingleBug; }
    var inputs := EditInputs(txcopy, blank, hashType, nin, sub.value);
    var outputs := EditOutputs(txcopy, hashType, nin);
    if !(-0x8000_0000 <= hashType < 0x8000_0000) { return NoDigest; }
    d := Preimage(TxBytes(txcopy.(inputs := inputs, outputs := outputs)) + Int32Bytes(hashType));
  }
}
