// How the sizes the builder estimates relate to the bytes that are printed.

module Sizes {
  import opened Bytes
  import opened Encoding
  import opened Script
  import opened Opcode
  import opened Transactions
  import opened Builder
  import opened Crypto
  import opened MultisigScripts
  import MultisigInputs
  import Bounds
  import Der

  // ----- lengths of what is printed -----

  lemma {:induction false} ConcatLength<T>(put: T -> bytes, size: T -> int, xs: seq<T>)
    requires forall x :: x in xs ==> size(x) == |put(x)|
    ensures |ConcatMap(put, xs)| == SumBy(size, xs)
  {
    if xs != [] {
      var init, x := xs[..|xs| - 1], xs[|xs| - 1];
      ConcatLength(put, size, init);
      ConcatMapSnoc(put, init, x);
      assert xs == init + [x];
    }
  }

  lemma {:induction false} SumAtMost<S, T>(f: S -> int, g: T -> int, xs: seq<S>, ys: seq<T>)
    requires |xs| == |ys| && forall k :: 0 <= k < |xs| ==> f(xs[k]) <= g(ys[k])
    ensures SumBy(f, xs) <= SumBy(g, ys)
  {
    if xs != [] { SumAtMost(f, g, xs[..|xs| - 1], ys[..|ys| - 1]); }
  }

  lemma {:induction false} SumOfSums<T>(f: T -> int, g: T -> int, h: T -> int, xs: seq<T>)
    requires forall x :: x in xs ==> f(x) == g(x) + h(x)
    ensures SumBy(f, xs) == SumBy(g, xs) + SumBy(h, xs)
  {
    if xs != [] { SumOfSums(f, g, h, xs[..|xs| - 1]); }
  }

  // ----- transactions -----

  function ScriptSize(i: TxIn): int { |i.script| }

  // What an input takes beside its script: outpoint, script length and sequence number, which the estimate leaves out.
  function LeftOut(i: TxIn): int { 32 + 4 + |VarintBytes(|i.script|)| + 4 }

  function InBytes(i: TxIn): int { ScriptSize(i) + LeftOut(i) }
  function OutBytes(o: TxOut): int { 8 + |VarintBytes(|o.script|)| + |o.script| }

  lemma InTakes(i: TxIn)
    requires |i.prevTxId| == 32
    ensures |TxInBytes(i)| == InBytes(i)
  {
  }

  lemma OutTakes(o: TxOut)
    requires o.satoshis < Pow256(8)
    ensures |TxOutBytes(o)| == OutBytes(o)
  {
    UInt64Fits(o.satoshis);
  }

  // An unmarked transaction with the outputs of the builder and an input for each of its.
  predicate Realises(tx: Tx, b: Builder)
  {
    && !tx.dummy && tx.flags.None? && |tx.inputs| == |b.inputs| && |tx.outputs| == |b.outputs|
    && (forall i :: i in tx.inputs ==> |i.prevTxId| == 32) && (forall o :: o in tx.outputs ==> o.satoshis < Pow256(8))
    && forall k :: 0 <= k < |tx.outputs| ==> tx.outputs[k].script == b.outputs[k].script
  }

  lemma PrintedSize(tx: Tx, b: Builder)
    requires Realises(tx, b)
    ensures |TxBytes(tx)| == 4 + |VarintBytes(|tx.inputs|)| + SumBy(InBytes, tx.inputs)
      + |VarintBytes(|tx.outputs|)| + SumBy(OutBytes, tx.outputs) + 4
  {
    forall i | i in tx.inputs ensures InBytes(i) == |TxInBytes(i)| { InTakes(i); }
    forall o | o in tx.outputs ensures OutBytes(o) == |TxOutBytes(o)| { OutTakes(o); }
    ConcatLength(TxInBytes, InBytes, tx.inputs);
    ConcatLength(TxOutBytes, OutBytes, tx.outputs);
  }

  lemma {:induction false} SameOutputs(xs: seq<TxOut>, ys: seq<Out>)
    requires |xs| == |ys| && forall k :: 0 <= k < |xs| ==> xs[k].script == ys[k].script && |xs[k].script| < 253
    ensures SumBy(OutBytes, xs) == SumBy(OutSize, ys)
  {
    if xs != [] { SameOutputs(xs[..|xs| - 1], ys[..|ys| - 1]); }
  }

  // The estimate against the print, byte for byte, where the output scripts take up to 252 bytes: the counts are taken for
  // nine bytes each, the input scripts for what their kind sets aside, and the rest of each input for nothing.
  lemma EstimateAgainstPrint(tx: Tx, b: Builder)
    requires Realises(tx, b) && forall o :: o in tx.outputs ==> |o.script| <= 252
    ensures EstimatedSize(b) - |TxBytes(tx)| ==
      (9 - |VarintBytes(|tx.inputs|)|) + (9 - |VarintBytes(|tx.outputs|)|)
      + (SumBy(InSize, b.inputs) - SumBy(ScriptSize, tx.inputs)) - SumBy(LeftOut, tx.inputs)
  {
    PrintedSize(tx, b);
    SumOfSums(InBytes, ScriptSize, LeftOut, tx.inputs);
    SameOutputs(tx.outputs, b.outputs);
  }

  // So, where no input script is longer than its kind sets aside, the print takes no more than the estimate and the part
  // of the inputs it leaves out.
  lemma EstimateCovers(tx: Tx, b: Builder)
    requires Realises(tx, b) && forall o :: o in tx.outputs ==> |o.script| <= 252
    requires forall k :: 0 <= k < |tx.inputs| ==> |tx.inputs[k].script| <= InSize(b.inputs[k])
    ensures |TxBytes(tx)| <= EstimatedSize(b) + SumBy(LeftOut, tx.inputs)
  {
    EstimateAgainstPrint(tx, b);
    SumAtMost(ScriptSize, InSize, tx.inputs, b.inputs);
  }

  // ----- input scripts -----

  function PushSize(b: bytes): int { |b| + 1 }

  lemma ShortPushTakes(b: bytes)
    requires |b| < OP_PUSHDATA1
    ensures |ChunkBytes(PushOf(b))| == PushSize(b)
  {
  }

  // A signature and a key fit what is set aside for them if they take 105 bytes: a compressed key and up to 72 for the
  // signature with its type.
  lemma PublicKeyHashInFits(i: In, sig: bytes, key: bytes)
    requires i.kind.PublicKeyHash? && |sig| < OP_PUSHDATA1 && |key| < OP_PUSHDATA1
    ensures |ToBuffer(PublicKeyHashIn(sig, key))| <= InSize(i) <==> |sig| + |key| <= 105
  {
    var script := PublicKeyHashIn(sig, key);
    assert script == [PushOf(sig)] + [PushOf(key)];
    ToBufferAppend([PushOf(sig)], [PushOf(key)]);
    OneChunk(PushOf(sig));
    OneChunk(PushOf(key));
    ShortPushTakes(sig);
    ShortPushTakes(key);
  }

  // The script for a plain public key pushes the signature alone.
  lemma PublicKeyInFits(i: In, sig: bytes)
    requires i.kind.PublicKey? && |sig| < OP_PUSHDATA1
    ensures |ToBuffer([PushOf(sig)])| <= InSize(i) <==> |sig| <= 72
  {
    OneChunk(PushOf(sig));
    ShortPushTakes(sig);
  }

  predicate AllShort(bufs: seq<bytes>) { forall b :: b in bufs ==> |b| < OP_PUSHDATA1 }

  lemma {:induction false} PushesTake(bufs: seq<bytes>)
    requires AllShort(bufs)
    ensures AllPushable(bufs) && |ToBuffer(Pushes(bufs))| == SumBy(PushSize, bufs)
  {
    if bufs != [] {
      var init, b := bufs[..|bufs| - 1], bufs[|bufs| - 1];
      PushesTake(init);
      assert Pushes(bufs) == Pushes(init) + [PushOf(b)];
      ToBufferAppend(Pushes(init), [PushOf(b)]);
      OneChunk(PushOf(b));
      ShortPushTakes(b);
    }
  }

  lemma MultisigInTakes(sigs: seq<bytes>)
    requires AllShort(sigs)
    ensures AllPushable(sigs) && |ToBuffer(MultisigIn(sigs))| == 1 + SumBy(PushSize, sigs)
  {
    PushesTake(sigs);
    ToBufferAppend([Plain(OP_0)], Pushes(sigs));
    OneChunk(Plain(OP_0));
  }

  lemma {:induction false} SumOfBounded(bufs: seq<bytes>, k: nat)
    requires forall b :: b in bufs ==> |b| < k
    ensures SumBy(PushSize, bufs) <= k * |bufs|
  {
    if bufs != [] {
      SumOfBounded(bufs[..|bufs| - 1], k);
      assert k * |bufs| == k * (|bufs| - 1) + k;
    }
  }

  lemma {:induction false} SumOfEqual(bufs: seq<bytes>, k: nat)
    requires forall b :: b in bufs ==> |b| + 1 == k
    ensures SumBy(PushSize, bufs) == k * |bufs|
  {
    if bufs != [] {
      SumOfEqual(bufs[..|bufs| - 1], k);
      assert k * |bufs| == k * (|bufs| - 1) + k;
    }
  }

  // Up to the threshold of signatures of up to 72 bytes fit a bare multisig input; that many of 73 bytes do not.
  lemma MultisigInFits(i: In, sigs: seq<bytes>)
    requires i.kind.Multisig? && |sigs| <= i.kind.threshold && forall s :: s in sigs ==> |s| <= 73
    ensures AllPushable(sigs)
    ensures |ToBuffer(MultisigIn(sigs))| <= InSize(i) <==> SumBy(PushSize, sigs) <= 73 * i.kind.threshold
    ensures (forall s :: s in sigs ==> |s| <= 72) ==> |ToBuffer(MultisigIn(sigs))| <= InSize(i)
    ensures |sigs| == i.kind.threshold > 0 && (forall s :: s in sigs ==> |s| == 73) ==>
      |ToBuffer(MultisigIn(sigs))| > InSize(i)
  {
    MultisigInTakes(sigs);
    if forall s :: s in sigs ==> |s| <= 72 {
      SumOfBounded(sigs, 73);
      MulMonotone(73, |sigs|, i.kind.threshold);
    }
    if forall s :: s in sigs ==> |s| == 73 { SumOfEqual(sigs, 74); }
  }

  lemma MultisigOutTakes(m: nat, keys: seq<bytes>)
    requires m <= MAX_KEYS && |keys| <= MAX_KEYS && forall k :: k in keys ==> |k| == 33
    ensures AllPushable(keys) && |ToBuffer(MultisigOut(m, keys))| == 3 + 34 * |keys|
  {
    var ends := [SmallInt(|keys|), Plain(OP_CHECKMULTISIG)];
    PushesTake(keys);
    SumOfEqual(keys, 34);
    ToBufferAppend([SmallInt(m)] + Pushes(keys), ends);
    ToBufferAppend([SmallInt(m)], Pushes(keys));
    OneChunk(SmallInt(m));
    assert ends == [SmallInt(|keys|)] + [Plain(OP_CHECKMULTISIG)];
    ToBufferAppend([SmallInt(|keys|)], [Plain(OP_CHECKMULTISIG)]);
    OneChunk(SmallInt(|keys|));
    OneChunk(Plain(OP_CHECKMULTISIG));
  }

  // Behind a script hash all signatures fit, as long as the keys are compressed; as many as the threshold of 73 bytes each,
  // for a hashed script of more than 255 bytes, take all there is.
  lemma ScriptHashMultisigInFits(i: In, m: nat, keys: seq<bytes>, sigs: seq<bytes>)
    requires i.kind == ScriptHashMultisig(m, |keys|) && m <= MAX_KEYS && |keys| <= MAX_KEYS
    requires (forall k :: k in keys ==> |k| == 33) && |sigs| <= m && forall s :: s in sigs ==> |s| <= 73
    ensures AllPushable(keys) && AllPushable(sigs) && |ToBuffer(MultisigOut(m, keys))| < MAX_PUSH
    ensures |ToBuffer(P2SHMultisigIn(sigs, MultisigOut(m, keys)))| <= InSize(i)
    ensures |sigs| == m && (forall s :: s in sigs ==> |s| == 73) && |keys| >= 8 ==>
      |ToBuffer(P2SHMultisigIn(sigs, MultisigOut(m, keys)))| == InSize(i)
  {
    MultisigOutTakes(m, keys);
    if forall s :: s in sigs ==> |s| == 73 { SumOfEqual(sigs, 74); }
    MultisigInTakes(sigs);
    SumOfBounded(sigs, 74);
    MulMonotone(74, |sigs|, m);
    var redeem := ToBuffer(MultisigOut(m, keys));
    ToBufferAppend(MultisigIn(sigs), [PushOf(redeem)]);
    OneChunk(PushOf(redeem));
    assert |ChunkBytes(PushOf(redeem))| <= 3 + |redeem| && (|redeem| >= 256 ==> |ChunkBytes(PushOf(redeem))| == 3 + |redeem|);
  }

  // ----- signatures -----

  lemma TopByteBounds(b: bytes, limit: nat)
    requires b != []
    ensures b[0] < limit ==> BigEndian(b) < Pow256(|b| - 1) * limit
    ensures b[0] >= limit ==> BigEndian(b) >= Pow256(|b| - 1) * limit
  {
    BigEndianFirst(b);
    if b[0] < limit {
      ScaledBelow(Pow256(|b| - 1), BigEndian(b[1..]), b[0], limit);
    } else {
      MulMonotone(Pow256(|b| - 1), limit, b[0]);
    }
  }

  // An integer takes 33 bytes in a signature exactly if its top bit is set.
  lemma IntegerTakes(n: nat)
    requires n < Pow256(32)
    ensures |Der.IntegerBytes(n)| <= 33
    ensures |Der.IntegerBytes(n)| == 33 <==> 2 * n >= Pow256(32)
  {
    Der.IntegerBytesLength(n, 32);
    NatToBELength(n, 32);
    NaturalTakes(n, NatToBE(n));
  }

  lemma NaturalTakes(n: nat, nb: bytes)
    requires n < Pow256(32) && nb == NatToBE(n) && |nb| <= 32
    ensures |nb| == 32 && nb[0] >= 128 <==> 2 * n >= Pow256(32)
  {
    NatToBEValue(n);
    Pow256Step(31);
    if |nb| < 32 {
      TopByteBounds(nb, 256);
      Pow256Step(|nb| - 1);
      Bounds.PowMonotone(|nb|, 31);
    } else {
      TopByteBounds(nb, 128);
    }
  }

  lemma Pow256Step(k: nat)
    ensures Pow256(k + 1) == 256 * Pow256(k)
  {
  }

  // A signature takes 73 bytes with its type, and so more than a plain input sets aside for it, exactly if both of its
  // numbers have their top bit set.
  lemma SignatureTakes73Iff(sig: Der.Signature)
    requires sig.r < Pow256(32) && sig.s < Pow256(32)
    ensures |Der.ToTxFormat(sig)| <= 73
    ensures |Der.ToTxFormat(sig)| == 73 <==> 2 * sig.r >= Pow256(32) && 2 * sig.s >= Pow256(32)
  {
    Der.ToTxFormatIsLayout(sig);
    IntegerTakes(sig.r);
    IntegerTakes(sig.s);
  }

  // ----- output scripts -----

  // The scripts of addresses read back as the outputs whose spending is decided in PublicKeyHash and MultisigScripts.
  lemma AddressScripts(h: Hash160, crypto: Crypto, redeem: seq<Chunk>)
    requires |crypto.sha256ripemd160(ToBuffer(redeem))| == 20
    ensures FromBuffer(AddressScript(PayToPublicKeyHash(h))) == Some(PublicKeyHashOut(h))
    ensures FromBuffer(AddressScript(PayToScriptHash(crypto.sha256ripemd160(ToBuffer(redeem))))) == Some(ScriptHashOut(crypto, redeem))
  {
    PushOfIsWhole(h);
    PushOfIsWhole(crypto.sha256ripemd160(ToBuffer(redeem)));
    WholeIsParsed(PublicKeyHashOut(h));
    ParseIffPrint(ToBuffer(PublicKeyHashOut(h)), PublicKeyHashOut(h));
    WholeIsParsed(ScriptHashOut(crypto, redeem));
    ParseIffPrint(ToBuffer(ScriptHashOut(crypto, redeem)), ScriptHashOut(crypto, redeem));
  }

  // What the slots of an input print behind a script hash is never longer than estimated.
  lemma SlotsFit(i: In, m: nat, keys: seq<bytes>, slots: MultisigInputs.Slots)
    requires i.kind == ScriptHashMultisig(m, |keys|) && m <= MAX_KEYS && |keys| <= MAX_KEYS
    requires forall k :: k in keys ==> |k| == 33
    requires MultisigInputs.Count(slots) <= m
    requires forall k :: 0 <= k < |slots| && slots[k].Some? ==> MultisigInputs.Writable(slots[k].value)
    ensures var sigs := MultisigInputs.CreateSignatures(slots);
      && AllPushable(keys) && AllPushable(sigs) && |ToBuffer(MultisigOut(m, keys))| < MAX_PUSH
      && |ToBuffer(MultisigInputs.InScript(MultisigInputs.ScriptHash, sigs, MultisigOut(m, keys)))| <= InSize(i)
  {
    var sigs := MultisigInputs.CreateSignatures(slots);
    MultisigInputs.PositionsIncrease(slots);
    forall s | s in sigs ensures |s| <= 73 {
      var j :| 0 <= j < |sigs| && sigs[j] == s;
      var at := MultisigInputs.Positions(slots)[j];
      assert MultisigInputs.Holds(slots, at, sigs[j]);
      var t := slots[at].value;
      SignatureTakes73Iff(Der.Signature(t.r, t.s, t.sigtype % 256));
    }
    ScriptHashMultisigInFits(i, m, keys, sigs);
  }
}
