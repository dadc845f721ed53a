// Transactions, block headers and blocks as values, and their byte form
// (transaction/transaction.js, input/input.js, output.js, block/blockheader.js, block/block.js).

module Transactions {
  import opened Bytes
  import opened Encoding

  datatype TxIn = TxIn(prevTxId: bytes, outputIndex: nat, script: bytes, sequence: nat)
  datatype TxOut = TxOut(satoshis: nat, script: bytes)

  // dummy says that a marker byte was read; flags is the byte after it.
  datatype Tx = Tx(version: int, dummy: bool, flags: Option<nat>, inputs: seq<TxIn>, outputs: seq<TxOut>,
                   witnessStack: seq<seq<bytes>>, nLockTime: nat)

  datatype Header = Header(version: int, prevHash: bytes, merkleRoot: bytes, time: nat, bits: nat, nonce: nat,
                           hashStateRoot: bytes, hashUTXORoot: bytes, prevOutStakeHash: bytes, prevOutStakeN: nat,
                           vchBlockSig: bytes)
  datatype Block = Block(header: Header, transactions: seq<Tx>)

  const MAX_UINT32: nat := 0xffff_ffff

  // The outpoint of a coinbase input.
  predicate IsNullOutpoint(txId: bytes, index: nat)
  {
    index == MAX_UINT32 && |txId| == 32 && forall k :: 0 <= k < 32 ==> txId[k] == 0
  }

  predicate Flagged(tx: Tx) { tx.flags.Some? && tx.flags.value != 0 }

  // ----- printing -----

  function TxInBytes(i: TxIn): bytes
  {
    Reverse(i.prevTxId) + (FixedLE(i.outputIndex, 4) + (VarLengthBytes(i.script) + FixedLE(i.sequence, 4)))
  }

  function TxOutBytes(o: TxOut): bytes
  {
    UInt64Bytes(o.satoshis) + VarLengthBytes(o.script)
  }

  function WitnessBytes(items: seq<bytes>): bytes
  {
    VarintBytes(|items|) + ConcatMap(VarLengthBytes, items)
  }

  // A flagged transaction needs a witness list for each input.
  predicate Printable(tx: Tx)
  {
    Flagged(tx) ==> |tx.inputs| <= |tx.witnessStack|
  }

  function MarkerBytes(tx: Tx): bytes
  {
    (if tx.dummy then [0] else []) +
    (match tx.flags case None => [] case Some(f) => [if f != 0 then 1 else 0])
  }

  function WitnessSection(tx: Tx): bytes
    requires Printable(tx)
  {
    if Flagged(tx) then ConcatMap(WitnessBytes, tx.witnessStack[..|tx.inputs|]) else []
  }

  // Everything after the inputs.
  function RestBytes(tx: Tx): bytes
    requires Printable(tx)
  {
    VarintBytes(|tx.outputs|) + (ConcatMap(TxOutBytes, tx.outputs) + (WitnessSection(tx) + FixedLE(tx.nLockTime, 4)))
  }

  // Everything after the marker.
  function BodyBytes(tx: Tx): bytes
    requires Printable(tx)
  {
    VarintBytes(|tx.inputs|) + (ConcatMap(TxInBytes, tx.inputs) + RestBytes(tx))
  }

  function TxBytes(tx: Tx): bytes
    requires Printable(tx)
  {
    Int32Bytes(tx.version) + (MarkerBytes(tx) + BodyBytes(tx))
  }

  // ----- reading -----

  function ReadTxIn(buf: bytes, pos: nat): Read<TxIn>
  {
    var (id, p0) :- ReadBytes(buf, pos, 32);
    var (index, p1) :- ReadUInt(buf, p0, 4);
    var (script, p2) :- ReadVarLength(buf, p1);
    var (sequence, p3) :- ReadUInt(buf, p2, 4);
    Got(TxIn(Reverse(id), index, script, sequence), p3)
  }

  // Unlike an input script, an output script or witness item cut short by the end is taken as it is.
  function ReadItem(buf: bytes, pos: nat): Read<bytes>
  {
    var (len, p) :- ReadVarint(buf, pos);
    ReadBytes(buf, p, len)
  }

  function ReadTxOut(buf: bytes, pos: nat): Read<TxOut>
  {
    var (satoshis, p) :- ReadUInt(buf, pos, 8);
    var (script, q) :- ReadItem(buf, p);
    Got(TxOut(satoshis, script), q)
  }

  function ReadWitness(buf: bytes, pos: nat): Read<seq<bytes>>
  {
    var (n, p) :- ReadVarint(buf, pos);
    ReadList(ReadItem, buf, p, n)
  }

  // Outputs, witness lists and lock time, once the inputs are known.
  function ReadRest(version: int, flags: Option<nat>, inputs: seq<TxIn>, buf: bytes, pos: nat): Read<Tx>
  {
    var (n, p1) :- ReadVarint(buf, pos);
    var (outputs, p2) :- ReadList(ReadTxOut, buf, p1, n);
    var (witnesses, p3) :- if flags.Some? && flags.value != 0 then ReadList(ReadWitness, buf, p2, |inputs|) else Got([], p2);
    var (lock, p4) :- ReadUInt(buf, p3, 4);
    Got(Tx(version, flags.Some?, flags, inputs, outputs, witnesses, lock), p4)
  }

  function ReadBody(version: int, flags: Option<nat>, buf: bytes, pos: nat, count: nat): Read<Tx>
  {
    var (inputs, p) :- ReadList(ReadTxIn, buf, pos, count);
    ReadRest(version, flags, inputs, buf, p)
  }

  // An input count of zero is taken for the witness marker.
  function ReadTx(buf: bytes, pos: nat): Read<Tx>
  {
    if pos >= |buf| then Threw
    else
      var (version, p0) :- ReadInt32(buf, pos);
      var (n, p1) :- ReadVarint(buf, p0);
      if n == 0 then
        var (f, p2) :- ReadUInt(buf, p1, 1);
        var (m, p3) :- ReadVarint(buf, p2);
        ReadBody(version, Some(f), buf, p3, m)
      else
        ReadBody(version, None, buf, p1, n)
  }

  function ReadHeader(buf: bytes, pos: nat): Read<Header>
  {
    var (version, p0) :- ReadInt32(buf, pos);
    var (prevHash, p1) :- ReadBytes(buf, p0, 32);
    var (merkleRoot, p2) :- ReadBytes(buf, p1, 32);
    var (time, p3) :- ReadUInt(buf, p2, 4);
    var (bits, p4) :- ReadUInt(buf, p3, 4);
    var (nonce, p5) :- ReadUInt(buf, p4, 4);
    var (stateRoot, p6) :- ReadBytes(buf, p5, 32);
    var (utxoRoot, p7) :- ReadBytes(buf, p6, 32);
    var (stakeHash, p8) :- ReadBytes(buf, p7, 32);
    var (stakeN, p9) :- ReadUInt(buf, p8, 4);
    var (sig, p10) :- ReadItem(buf, p9);
    Got(Header(version, prevHash, merkleRoot, time, bits, nonce, stateRoot, utxoRoot, stakeHash, stakeN, sig), p10)
  }

  function HeaderBytes(h: Header): bytes
  {
    Int32Bytes(h.version) + (h.prevHash + (h.merkleRoot + (FixedLE(h.time, 4) + (FixedLE(h.bits, 4) + (FixedLE(h.nonce, 4) +
      (h.hashStateRoot + (h.hashUTXORoot + (h.prevOutStakeHash + (FixedLE(h.prevOutStakeN, 4) +
        VarLengthBytes(h.vchBlockSig))))))))))
  }

  function ReadBlock(buf: bytes, pos: nat): Read<Block>
  {
    if pos >= |buf| then Threw
    else
      var (header, p) :- ReadHeader(buf, pos);
      var (n, q) :- ReadVarint(buf, p);
      var (txs, r) :- ReadList(ReadTx, buf, q, n);
      Got(Block(header, txs), r)
  }

  // The transaction printer for lists whose elements are all printable.
  function TxBytesOrNothing(tx: Tx): bytes
  {
    if Printable(tx) then TxBytes(tx) else []
  }

  function BlockBytes(b: Block): bytes
    requires forall tx :: tx in b.transactions ==> Printable(tx)
  {
    HeaderBytes(b.header) + (VarintBytes(|b.transactions|) + ConcatMap(TxBytesOrNothing, b.transactions))
  }

  // ----- values whose fields fit -----

  predicate ShortBytes(b: bytes) { |b| <= MAX_INEXACT }

  predicate TxInFits(i: TxIn)
  {
    |i.prevTxId| == 32 && i.outputIndex <= MAX_UINT32 && ShortBytes(i.script) && i.sequence <= MAX_UINT32
  }

  predicate TxOutFits(o: TxOut)
  {
    o.satoshis < Pow256(8) && ShortBytes(o.script)
  }

  predicate WitnessFits(items: seq<bytes>)
  {
    |items| <= MAX_INEXACT && forall b :: b in items ==> ShortBytes(b)
  }

  predicate TxFits(tx: Tx)
  {
    && -0x8000_0000 <= tx.version < 0x8000_0000
    && |tx.inputs| <= MAX_INEXACT && (forall i :: i in tx.inputs ==> TxInFits(i))
    && |tx.outputs| <= MAX_INEXACT && (forall o :: o in tx.outputs ==> TxOutFits(o))
    && (if Flagged(tx) then |tx.witnessStack| == |tx.inputs| else tx.witnessStack == [])
    && (forall w :: w in tx.witnessStack ==> WitnessFits(w))
    && tx.nLockTime <= MAX_UINT32
  }

  // Marker and flag byte both there, the flag 0 or 1; or neither, and at least one input.
  predicate MarkerConsistent(tx: Tx)
  {
    if tx.dummy then tx.flags.Some? && tx.flags.value <= 1 else tx.flags.None? && tx.inputs != []
  }

  predicate HeaderFits(h: Header)
  {
    && -0x8000_0000 <= h.version < 0x8000_0000
    && |h.prevHash| == |h.merkleRoot| == |h.hashStateRoot| == |h.hashUTXORoot| == |h.prevOutStakeHash| == 32
    && h.time <= MAX_UINT32 && h.bits <= MAX_UINT32 && h.nonce <= MAX_UINT32 && h.prevOutStakeN <= MAX_UINT32
    && ShortBytes(h.vchBlockSig)
  }

  // ----- what is printed is read back, wherever it stands -----

  lemma UInt32RoundTrip(buf: bytes, pos: nat, n: nat)
    requires n <= MAX_UINT32 && Stands(buf, pos, FixedLE(n, 4))
    ensures ReadUInt(buf, pos, 4) == Got(n, pos + 4)
  {
    Powers();
    UIntRoundTrip(buf, pos, n, 4);
  }

  lemma TxInRoundTrip(buf: bytes, p: nat, i: TxIn)
    requires TxInFits(i) && Stands(buf, p, TxInBytes(i))
    ensures ReadTxIn(buf, p) == Got(i, p + |TxInBytes(i)|)
  {
    var p3 := p + 36 + |VarLengthBytes(i.script)|;
    StandsAppend4(buf, p, Reverse(i.prevTxId), FixedLE(i.outputIndex, 4), VarLengthBytes(i.script), FixedLE(i.sequence, 4), p + 32, p + 36, p3);
    BytesRoundTrip(buf, p, Reverse(i.prevTxId));
    UInt32RoundTrip(buf, p + 32, i.outputIndex);
    VarLengthRoundTrip(buf, p + 36, i.script);
    UInt32RoundTrip(buf, p3, i.sequence);
    ReverseTwice(i.prevTxId);
  }

  lemma ItemRoundTrip(buf: bytes, p: nat, b: bytes)
    requires ShortBytes(b) && Stands(buf, p, VarLengthBytes(b))
    ensures ReadItem(buf, p) == Got(b, p + |VarLengthBytes(b)|)
  {
    var q := p + |VarintBytes(|b|)|;
    StandsAppend(buf, p, VarintBytes(|b|), b);
    VarintRoundTrip(buf, p, |b|);
    assert ReadVarint(buf, p) == Got(|b|, q) && q + |b| == p + |VarLengthBytes(b)|;
    BytesRoundTrip(buf, q, b);
  }

  lemma TxOutRoundTrip(buf: bytes, p: nat, o: TxOut)
    requires TxOutFits(o) && Stands(buf, p, TxOutBytes(o))
    ensures ReadTxOut(buf, p) == Got(o, p + |TxOutBytes(o)|)
  {
    UInt64Fits(o.satoshis);
    StandsAppend(buf, p, FixedLE(o.satoshis, 8), VarLengthBytes(o.script));
    UIntRoundTrip(buf, p, o.satoshis, 8);
    ItemRoundTrip(buf, p + 8, o.script);
  }

  lemma ItemReadsBack(buf: bytes, b: bytes)
    requires ShortBytes(b)
    ensures ReadsBack(ReadItem, VarLengthBytes, buf, b)
  {
    forall p: nat | Stands(buf, p, VarLengthBytes(b)) ensures ReadItem(buf, p) == Got(b, p + |VarLengthBytes(b)|) {
      ItemRoundTrip(buf, p, b);
    }
  }

  lemma ItemsRoundTrip(buf: bytes, p: nat, items: seq<bytes>)
    requires (forall b :: b in items ==> ShortBytes(b)) && Stands(buf, p, ConcatMap(VarLengthBytes, items))
    ensures ReadList(ReadItem, buf, p, |items|) == Got(items, p + |ConcatMap(VarLengthBytes, items)|)
  {
    forall b | b in items ensures ReadsBack(ReadItem, VarLengthBytes, buf, b) { ItemReadsBack(buf, b); }
    ListRoundTrip(ReadItem, VarLengthBytes, buf, p, items);
  }

  lemma WitnessAssembles(buf: bytes, p: nat, items: seq<bytes>, p1: nat, end: nat)
    requires ReadVarint(buf, p) == Got(|items|, p1)
    requires ReadList(ReadItem, buf, p1, |items|) == Got(items, end)
    ensures ReadWitness(buf, p) == Got(items, end)
  {
  }

  lemma WitnessRoundTrip(buf: bytes, p: nat, items: seq<bytes>)
    requires WitnessFits(items) && Stands(buf, p, WitnessBytes(items))
    ensures ReadWitness(buf, p) == Got(items, p + |WitnessBytes(items)|)
  {
    var head, rest := VarintBytes(|items|), ConcatMap(VarLengthBytes, items);
    var p1 := p + |head|;
    StandsAppend(buf, p, head, rest);
    VarintRoundTrip(buf, p, |items|);
    ItemsRoundTrip(buf, p1, items);
    WitnessAssembles(buf, p, items, p1, p1 + |rest|);
  }

  lemma TxInReadsBack(buf: bytes, i: TxIn)
    requires TxInFits(i)
    ensures ReadsBack(ReadTxIn, TxInBytes, buf, i)
  {
    forall p: nat | Stands(buf, p, TxInBytes(i)) ensures ReadTxIn(buf, p) == Got(i, p + |TxInBytes(i)|) {
      TxInRoundTrip(buf, p, i);
    }
  }

  lemma TxOutReadsBack(buf: bytes, o: TxOut)
    requires TxOutFits(o)
    ensures ReadsBack(ReadTxOut, TxOutBytes, buf, o)
  {
    forall p: nat | Stands(buf, p, TxOutBytes(o)) ensures ReadTxOut(buf, p) == Got(o, p + |TxOutBytes(o)|) {
      TxOutRoundTrip(buf, p, o);
    }
  }

  lemma WitnessReadsBack(buf: bytes, items: seq<bytes>)
    requires WitnessFits(items)
    ensures ReadsBack(ReadWitness, WitnessBytes, buf, items)
  {
    forall p: nat | Stands(buf, p, WitnessBytes(items)) ensures ReadWitness(buf, p) == Got(items, p + |WitnessBytes(items)|) {
      WitnessRoundTrip(buf, p, items);
    }
  }

  lemma InputsRoundTrip(buf: bytes, pos: nat, tx: Tx)
    requires TxFits(tx) && Stands(buf, pos, ConcatMap(TxInBytes, tx.inputs))
    ensures ReadList(ReadTxIn, buf, pos, |tx.inputs|) == Got(tx.inputs, pos + |ConcatMap(TxInBytes, tx.inputs)|)
  {
    forall i | i in tx.inputs ensures ReadsBack(ReadTxIn, TxInBytes, buf, i) { TxInReadsBack(buf, i); }
    ListRoundTrip(ReadTxIn, TxInBytes, buf, pos, tx.inputs);
  }

  lemma OutputsRoundTrip(buf: bytes, pos: nat, tx: Tx)
    requires TxFits(tx) && Stands(buf, pos, ConcatMap(TxOutBytes, tx.outputs))
    ensures ReadList(ReadTxOut, buf, pos, |tx.outputs|) == Got(tx.outputs, pos + |ConcatMap(TxOutBytes, tx.outputs)|)
  {
    forall o | o in tx.outputs ensures ReadsBack(ReadTxOut, TxOutBytes, buf, o) { TxOutReadsBack(buf, o); }
    ListRoundTrip(ReadTxOut, TxOutBytes, buf, pos, tx.outputs);
  }

  lemma WitnessListsRoundTrip(buf: bytes, pos: nat, tx: Tx)
    requires TxFits(tx) && Flagged(tx) && Stands(buf, pos, ConcatMap(WitnessBytes, tx.witnessStack))
    ensures ReadList(ReadWitness, buf, pos, |tx.inputs|) == Got(tx.witnessStack, pos + |ConcatMap(WitnessBytes, tx.witnessStack)|)
  {
    forall w | w in tx.witnessStack ensures ReadsBack(ReadWitness, WitnessBytes, buf, w) { WitnessReadsBack(buf, w); }
    ListRoundTrip(ReadWitness, WitnessBytes, buf, pos, tx.witnessStack);
  }

  lemma WitnessSectionRoundTrip(buf: bytes, pos: nat, tx: Tx)
    requires TxFits(tx) && Printable(tx) && Stands(buf, pos, WitnessSection(tx))
    ensures (if Flagged(tx) then ReadList(ReadWitness, buf, pos, |tx.inputs|) else Got([], pos))
         == Got(tx.witnessStack, pos + |WitnessSection(tx)|)
  {
    if Flagged(tx) {
      assert tx.witnessStack[..|tx.inputs|] == tx.witnessStack;
      WitnessListsRoundTrip(buf, pos, tx);
    }
  }

  lemma RestAssembles(buf: bytes, pos: nat, tx: Tx, a: nat, b: nat, c: nat)
    requires tx.dummy == tx.flags.Some?
    requires ReadVarint(buf, pos) == Got(|tx.outputs|, a)
    requires ReadList(ReadTxOut, buf, a, |tx.outputs|) == Got(tx.outputs, b)
    requires (if Flagged(tx) then ReadList(ReadWitness, buf, b, |tx.inputs|) else Got([], b)) == Got(tx.witnessStack, c)
    requires ReadUInt(buf, c, 4) == Got(tx.nLockTime, c + 4)
    ensures ReadRest(tx.version, tx.flags, tx.inputs, buf, pos) == Got(tx, c + 4)
  {
  }

  // Where the parts of RestBytes(tx) stand once it stands at pos.
  lemma RestParts(buf: bytes, pos: nat, tx: Tx, p1: nat, p2: nat, p3: nat)
    requires Printable(tx) && Stands(buf, pos, RestBytes(tx))
    requires p1 == pos + |VarintBytes(|tx.outputs|)|
    requires p2 == p1 + |ConcatMap(TxOutBytes, tx.outputs)|
    requires p3 == p2 + |WitnessSection(tx)|
    ensures Stands(buf, pos, VarintBytes(|tx.outputs|)) && Stands(buf, p1, ConcatMap(TxOutBytes, tx.outputs))
    ensures Stands(buf, p2, WitnessSection(tx)) && Stands(buf, p3, FixedLE(tx.nLockTime, 4))
    ensures pos + |RestBytes(tx)| == p3 + 4
  {
    StandsAppend4(buf, pos, VarintBytes(|tx.outputs|), ConcatMap(TxOutBytes, tx.outputs), WitnessSection(tx),
                  FixedLE(tx.nLockTime, 4), p1, p2, p3);
  }

  lemma RestReads(buf: bytes, pos: nat, tx: Tx, p1: nat, p2: nat, p3: nat)
    requires TxFits(tx) && Printable(tx)
    requires Stands(buf, pos, VarintBytes(|tx.outputs|)) && Stands(buf, p1, ConcatMap(TxOutBytes, tx.outputs))
    requires Stands(buf, p2, WitnessSection(tx)) && Stands(buf, p3, FixedLE(tx.nLockTime, 4))
    ensures ReadVarint(buf, pos) == Got(|tx.outputs|, pos + |VarintBytes(|tx.outputs|)|)
    ensures ReadList(ReadTxOut, buf, p1, |tx.outputs|) == Got(tx.outputs, p1 + |ConcatMap(TxOutBytes, tx.outputs)|)
    ensures (if Flagged(tx) then ReadList(ReadWitness, buf, p2, |tx.inputs|) else Got([], p2))
         == Got(tx.witnessStack, p2 + |WitnessSection(tx)|)
    ensures ReadUInt(buf, p3, 4) == Got(tx.nLockTime, p3 + 4)
  {
    VarintRoundTrip(buf, pos, |tx.outputs|);
    OutputsRoundTrip(buf, p1, tx);
    WitnessSectionRoundTrip(buf, p2, tx);
    UInt32RoundTrip(buf, p3, tx.nLockTime);
  }

  lemma RestPartsRead(buf: bytes, pos: nat, tx: Tx, p1: nat, p2: nat, p3: nat)
    requires TxFits(tx) && Printable(tx) && Stands(buf, pos, RestBytes(tx))
    requires p1 == pos + |VarintBytes(|tx.outputs|)|
    requires p2 == p1 + |ConcatMap(TxOutBytes, tx.outputs)|
    requires p3 == p2 + |WitnessSection(tx)|
    ensures ReadVarint(buf, pos) == Got(|tx.outputs|, p1)
    ensures ReadList(ReadTxOut, buf, p1, |tx.outputs|) == Got(tx.outputs, p2)
    ensures (if Flagged(tx) then ReadList(ReadWitness, buf, p2, |tx.inputs|) else Got([], p2)) == Got(tx.witnessStack, p3)
    ensures ReadUInt(buf, p3, 4) == Got(tx.nLockTime, p3 + 4)
    ensures pos + |RestBytes(tx)| == p3 + 4
  {
    RestParts(buf, pos, tx, p1, p2, p3);
    RestReads(buf, pos, tx, p1, p2, p3);
  }

  lemma RestRoundTrip(buf: bytes, pos: nat, tx: Tx)
    requires TxFits(tx) && Printable(tx) && tx.dummy == tx.flags.Some?
    requires Stands(buf, pos, RestBytes(tx))
    ensures ReadRest(tx.version, tx.flags, tx.inputs, buf, pos) == Got(tx, pos + |RestBytes(tx)|)
  {
    var p1 := pos + |VarintBytes(|tx.outputs|)|;
    var p2 := p1 + |ConcatMap(TxOutBytes, tx.outputs)|;
    var p3 := p2 + |WitnessSection(tx)|;
    RestPartsRead(buf, pos, tx, p1, p2, p3);
    RestAssembles(buf, pos, tx, p1, p2, p3);
  }

  lemma BodyParts(buf: bytes, pos: nat, tx: Tx, p1: nat, p2: nat)
    requires Printable(tx) && Stands(buf, pos, BodyBytes(tx))
    requires p1 == pos + |VarintBytes(|tx.inputs|)|
    requires p2 == p1 + |ConcatMap(TxInBytes, tx.inputs)|
    ensures Stands(buf, pos, VarintBytes(|tx.inputs|)) && Stands(buf, p1, ConcatMap(TxInBytes, tx.inputs))
    ensures Stands(buf, p2, RestBytes(tx)) && pos + |BodyBytes(tx)| == p2 + |RestBytes(tx)|
  {
    StandsAppend3(buf, pos, VarintBytes(|tx.inputs|), ConcatMap(TxInBytes, tx.inputs), RestBytes(tx), p1, p2);
  }

  lemma BodyAssembles(buf: bytes, tx: Tx, p1: nat, p2: nat, p3: nat)
    requires ReadList(ReadTxIn, buf, p1, |tx.inputs|) == Got(tx.inputs, p2)
    requires ReadRest(tx.version, tx.flags, tx.inputs, buf, p2) == Got(tx, p3)
    ensures ReadBody(tx.version, tx.flags, buf, p1, |tx.inputs|) == Got(tx, p3)
  {
  }

  lemma BodyReads(buf: bytes, pos: nat, tx: Tx, p1: nat, p2: nat)
    requires TxFits(tx)
    requires Stands(buf, pos, VarintBytes(|tx.inputs|)) && Stands(buf, p1, ConcatMap(TxInBytes, tx.inputs))
    requires p1 == pos + |VarintBytes(|tx.inputs|)| && p2 == p1 + |ConcatMap(TxInBytes, tx.inputs)|
    ensures ReadVarint(buf, pos) == Got(|tx.inputs|, p1)
    ensures ReadList(ReadTxIn, buf, p1, |tx.inputs|) == Got(tx.inputs, p2)
  {
    VarintRoundTrip(buf, pos, |tx.inputs|);
    InputsRoundTrip(buf, p1, tx);
  }

  lemma BodyPartsRead(buf: bytes, pos: nat, tx: Tx, p1: nat, p2: nat, end: nat)
    requires TxFits(tx) && Printable(tx) && tx.dummy == tx.flags.Some? && Stands(buf, pos, BodyBytes(tx))
    requires p1 == pos + |VarintBytes(|tx.inputs|)| && p2 == p1 + |ConcatMap(TxInBytes, tx.inputs)|
    requires end == p2 + |RestBytes(tx)|
    ensures ReadVarint(buf, pos) == Got(|tx.inputs|, p1)
    ensures ReadList(ReadTxIn, buf, p1, |tx.inputs|) == Got(tx.inputs, p2)
    ensures ReadRest(tx.version, tx.flags, tx.inputs, buf, p2) == Got(tx, end)
    ensures end == pos + |BodyBytes(tx)|
  {
    BodyParts(buf, pos, tx, p1, p2);
    BodyReads(buf, pos, tx, p1, p2);
    RestRoundTrip(buf, p2, tx);
  }

  lemma BodyRoundTrip(buf: bytes, pos: nat, tx: Tx, p1: nat, end: nat)
    requires TxFits(tx) && Printable(tx) && tx.dummy == tx.flags.Some?
    requires Stands(buf, pos, BodyBytes(tx))
    requires p1 == pos + |VarintBytes(|tx.inputs|)| && end == pos + |BodyBytes(tx)|
    ensures ReadVarint(buf, pos) == Got(|tx.inputs|, p1)
    ensures ReadBody(tx.version, tx.flags, buf, p1, |tx.inputs|) == Got(tx, end)
  {
    var p2 := p1 + |ConcatMap(TxInBytes, tx.inputs)|;
    var last := p2 + |RestBytes(tx)|;
    BodyPartsRead(buf, pos, tx, p1, p2, last);
    BodyAssembles(buf, tx, p1, p2, last);
  }

  // What reading ever produces: marker and flag byte together, inputs when there is no marker.
  lemma BodyShape(version: int, flags: Option<nat>, buf: bytes, pos: nat, count: nat)
    requires ReadBody(version, flags, buf, pos, count).Got?
    ensures var tx := ReadBody(version, flags, buf, pos, count).value;
      tx.flags == flags && tx.dummy == flags.Some? && |tx.inputs| == count && Printable(tx)
  {
  }

  lemma ReadTxMarker(buf: bytes, pos: nat)
    requires ReadTx(buf, pos).Got?
    ensures var tx := ReadTx(buf, pos).value;
      tx.dummy == tx.flags.Some? && (!tx.dummy ==> tx.inputs != []) && Printable(tx)
  {
    var Got(version, p0) := ReadInt32(buf, pos);
    var Got(n, p1) := ReadVarint(buf, p0);
    if n == 0 {
      var Got(f, p2) := ReadUInt(buf, p1, 1);
      var Got(m, p3) := ReadVarint(buf, p2);
      BodyShape(version, Some(f), buf, p3, m);
    } else {
      BodyShape(version, None, buf, p1, n);
    }
  }

  lemma HeadStands(buf: bytes, pos: nat, tx: Tx, p1: nat, p2: nat)
    requires Printable(tx) && Stands(buf, pos, TxBytes(tx))
    requires p1 == pos + |Int32Bytes(tx.version)| && p2 == p1 + |MarkerBytes(tx)|
    ensures Stands(buf, pos, Int32Bytes(tx.version)) && Stands(buf, p1, MarkerBytes(tx)) && Stands(buf, p2, BodyBytes(tx))
    ensures pos + |TxBytes(tx)| == p2 + |BodyBytes(tx)|
  {
    StandsAppend3(buf, pos, Int32Bytes(tx.version), MarkerBytes(tx), BodyBytes(tx), p1, p2);
  }

  lemma MarkedAssembles(buf: bytes, pos: nat, tx: Tx, f: byte, p1: nat, end: nat)
    requires pos < |buf| && ReadInt32(buf, pos) == Got(tx.version, pos + 4)
    requires ReadVarint(buf, pos + 4) == Got(0, pos + 5) && ReadUInt(buf, pos + 5, 1) == Got(f, pos + 6)
    requires ReadVarint(buf, pos + 6) == Got(|tx.inputs|, p1)
    ensures ReadTx(buf, pos) == ReadBody(tx.version, Some(f), buf, p1, |tx.inputs|)
  {
  }

  lemma MarkedStands(buf: bytes, pos: nat, tx: Tx, f: byte)
    requires -0x8000_0000 <= tx.version < 0x8000_0000 && Printable(tx) && tx.dummy && tx.flags.Some?
    requires f == (if tx.flags.value != 0 then 1 else 0) && Stands(buf, pos, TxBytes(tx))
    ensures pos < |buf| && ReadInt32(buf, pos) == Got(tx.version, pos + 4)
    ensures ReadVarint(buf, pos + 4) == Got(0, pos + 5) && ReadUInt(buf, pos + 5, 1) == Got(f, pos + 6)
    ensures Stands(buf, pos + 6, BodyBytes(tx)) && |TxBytes(tx)| == 6 + |BodyBytes(tx)|
  {
    assert MarkerBytes(tx) == [0, f];
    HeadStands(buf, pos, tx, pos + 4, pos + 6);
    Int32RoundTrip(buf, pos, tx.version);
    MarkerRead(buf, pos + 4, f);
  }

  // A transaction with marker: the flag byte is read as written.
  lemma MarkedRoundTrip(buf: bytes, pos: nat, tx: Tx)
    requires TxFits(tx) && Printable(tx) && tx.dummy && tx.flags.Some? && Stands(buf, pos, TxBytes(tx))
    ensures ReadTx(buf, pos) == Got(tx, pos + |TxBytes(tx)|) <==> tx.flags.value <= 1
  {
    var f: byte := if tx.flags.value != 0 then 1 else 0;
    var p1, end := pos + 6 + |VarintBytes(|tx.inputs|)|, pos + |TxBytes(tx)|;
    MarkedStands(buf, pos, tx, f);
    var asRead := tx.(flags := Some(f));
    assert BodyBytes(asRead) == BodyBytes(tx);
    BodyRoundTrip(buf, pos + 6, asRead, p1, end);
    MarkedAssembles(buf, pos, asRead, f, p1, end);
  }

  lemma PlainRoundTrip(buf: bytes, pos: nat, tx: Tx)
    requires TxFits(tx) && Printable(tx) && !tx.dummy && tx.flags.None? && Stands(buf, pos, TxBytes(tx))
    requires tx.inputs != []
    ensures ReadTx(buf, pos) == Got(tx, pos + |TxBytes(tx)|)
  {
    assert MarkerBytes(tx) == [];
    HeadStands(buf, pos, tx, pos + 4, pos + 4);
    Int32RoundTrip(buf, pos, tx.version);
    BodyRoundTrip(buf, pos + 4, tx, pos + 4 + |VarintBytes(|tx.inputs|)|, pos + |TxBytes(tx)|);
  }

  // Reading a printed transaction, whatever follows it, gives it back and stops at its end, exactly when its
  // marker is consistent: without one it needs an input, and a flag byte above 1 is rewritten.
  lemma TxRoundTrip(buf: bytes, pos: nat, tx: Tx)
    requires TxFits(tx) && Printable(tx) && Stands(buf, pos, TxBytes(tx))
    ensures ReadTx(buf, pos) == Got(tx, pos + |TxBytes(tx)|) <==> MarkerConsistent(tx)
  {
    if ReadTx(buf, pos).Got? {
      ReadTxMarker(buf, pos);
    }
    if tx.dummy && tx.flags.Some? {
      MarkedRoundTrip(buf, pos, tx);
    } else if MarkerConsistent(tx) {
      PlainRoundTrip(buf, pos, tx);
    }
  }

  lemma MarkerRead(buf: bytes, pos: nat, flag: byte)
    requires Stands(buf, pos, [0, flag])
    ensures ReadVarint(buf, pos) == Got(0, pos + 1) && ReadUInt(buf, pos + 1, 1) == Got(flag, pos + 2)
  {
    assert [0, flag] == [0] + [flag];
    StandsAppend(buf, pos, [0], [flag]);
    assert LittleEndian([0]) == 0 && LittleEndian([flag]) == flag by { assert [flag][1..] == [] && [0][1..] == []; }
  }

  // Data cut short by the end of the buffer: an input script throws, an output script or witness item is what is there.
  lemma CutShort(buf: bytes, pos: nat)
    requires ReadVarint(buf, pos).Got?
    requires var r := ReadVarint(buf, pos); r.pos <= |buf| < r.pos + r.value
    ensures ReadVarLength(buf, pos) == Threw
    ensures var r := ReadVarint(buf, pos); ReadItem(buf, pos) == Got(buf[r.pos..], r.pos + r.value)
  {
    var r := ReadVarint(buf, pos);
    assert Slice(buf, r.pos, r.pos + r.value) == buf[r.pos..];
  }

  // ----- the wire format, by position -----

  lemma InputOnWire(i: TxIn)
    requires |i.prevTxId| == 32
    ensures var b := TxInBytes(i);
      && |b| >= 41 && b[..32] == Reverse(i.prevTxId) && b[32..36] == FixedLE(i.outputIndex, 4)
      && b[36..|b| - 4] == VarLengthBytes(i.script) && b[|b| - 4..] == FixedLE(i.sequence, 4)
  {
  }

  lemma OutputOnWire(o: TxOut)
    requires o.satoshis < Pow256(8)
    ensures var b := TxOutBytes(o); |b| >= 9 && b[..8] == FixedLE(o.satoshis, 8) && b[8..] == VarLengthBytes(o.script)
  {
    UInt64Fits(o.satoshis);
  }

  // Version first, lock time last; between them the marker with its flag if there is one, inputs, outputs and witnesses.
  lemma TransactionOnWire(tx: Tx)
    requires Printable(tx)
    ensures var b := TxBytes(tx);
      && |b| >= 8 && b[..4] == Int32Bytes(tx.version) && b[|b| - 4..] == FixedLE(tx.nLockTime, 4)
      && b[4..|b| - 4] == MarkerBytes(tx) + (VarintBytes(|tx.inputs|) + ConcatMap(TxInBytes, tx.inputs))
        + (VarintBytes(|tx.outputs|) + ConcatMap(TxOutBytes, tx.outputs)) + WitnessSection(tx)
  {
    PartsOfTransaction(tx);
    WireParts(TxBytes(tx), Int32Bytes(tx.version), MarkerBytes(tx), VarintBytes(|tx.inputs|), ConcatMap(TxInBytes, tx.inputs),
              VarintBytes(|tx.outputs|), ConcatMap(TxOutBytes, tx.outputs), WitnessSection(tx), FixedLE(tx.nLockTime, 4));
  }

  lemma MarkerAndWitness(tx: Tx)
    requires TxFits(tx) && Printable(tx) && MarkerConsistent(tx)
    ensures MarkerBytes(tx) == if tx.dummy then [0, tx.flags.value] else []
    ensures WitnessSection(tx) == if Flagged(tx) then ConcatMap(WitnessBytes, tx.witnessStack) else []
  {
    if Flagged(tx) { assert tx.witnessStack[..|tx.inputs|] == tx.witnessStack; }
  }

  lemma PartsOfTransaction(tx: Tx)
    requires Printable(tx)
    ensures TxBytes(tx) == Int32Bytes(tx.version) + (MarkerBytes(tx) + (VarintBytes(|tx.inputs|) + (ConcatMap(TxInBytes, tx.inputs)
      + (VarintBytes(|tx.outputs|) + (ConcatMap(TxOutBytes, tx.outputs) + (WitnessSection(tx) + FixedLE(tx.nLockTime, 4)))))))
  {
  }

  lemma WireParts(b: bytes, v: bytes, m: bytes, ni: bytes, ins: bytes, no: bytes, outs: bytes, w: bytes, lock: bytes)
    requires |v| == |lock| == 4 && b == v + (m + (ni + (ins + (no + (outs + (w + lock))))))
    ensures |b| >= 8 && b[..4] == v && b[|b| - 4..] == lock && b[4..|b| - 4] == m + (ni + ins) + (no + outs) + w
  {
    assert b == v + (m + (ni + ins) + (no + outs) + w) + lock;
  }

  lemma HeaderOnWire(h: Header)
    requires HeaderFits(h)
    ensures var b := HeaderBytes(h);
      && |b| >= 181 && b[..4] == Int32Bytes(h.version) && b[4..36] == h.prevHash && b[36..68] == h.merkleRoot
      && b[68..72] == FixedLE(h.time, 4) && b[72..76] == FixedLE(h.bits, 4) && b[76..80] == FixedLE(h.nonce, 4)
      && b[80..112] == h.hashStateRoot && b[112..144] == h.hashUTXORoot && b[144..176] == h.prevOutStakeHash
      && b[176..180] == FixedLE(h.prevOutStakeN, 4) && b[180..] == VarLengthBytes(h.vchBlockSig)
  {
    var b := HeaderBytes(h);
    assert b[0..|b|] == b;
    HeaderParts(b, 0, h);
    PartsAsSlices(b, h, VarLengthBytes(h.vchBlockSig));
  }

  lemma PartsAsSlices(b: bytes, h: Header, sig: bytes)
    requires |b| == 180 + |sig| && |sig| >= 1
    requires |h.prevHash| == |h.merkleRoot| == |h.hashStateRoot| == |h.hashUTXORoot| == |h.prevOutStakeHash| == 32
    requires Stands(b, 0, Int32Bytes(h.version)) && Stands(b, 4, h.prevHash) && Stands(b, 36, h.merkleRoot)
    requires Stands(b, 68, FixedLE(h.time, 4)) && Stands(b, 72, FixedLE(h.bits, 4)) && Stands(b, 76, FixedLE(h.nonce, 4))
    requires Stands(b, 80, h.hashStateRoot) && Stands(b, 112, h.hashUTXORoot) && Stands(b, 144, h.prevOutStakeHash)
    requires Stands(b, 176, FixedLE(h.prevOutStakeN, 4)) && Stands(b, 180, sig)
    ensures b[..4] == Int32Bytes(h.version) && b[4..36] == h.prevHash && b[36..68] == h.merkleRoot
    ensures b[68..72] == FixedLE(h.time, 4) && b[72..76] == FixedLE(h.bits, 4) && b[76..80] == FixedLE(h.nonce, 4)
    ensures b[80..112] == h.hashStateRoot && b[112..144] == h.hashUTXORoot && b[144..176] == h.prevOutStakeHash
    ensures b[176..180] == FixedLE(h.prevOutStakeN, 4) && b[180..] == sig
  {
    assert b[0..4] == b[..4] && b[180..180 + |sig|] == b[180..];
  }

  // Printing is injective on transactions with a consistent marker, even with other bytes after it.
  lemma TxBytesInjective(a: Tx, b: Tx, afterA: bytes, afterB: bytes)
    requires TxFits(a) && TxFits(b) && Printable(a) && Printable(b) && MarkerConsistent(a) && MarkerConsistent(b)
    requires TxBytes(a) + afterA == TxBytes(b) + afterB
    ensures a == b && afterA == afterB
  {
    var buf := TxBytes(a) + afterA;
    StandsAppend(buf, 0, TxBytes(a), afterA);
    StandsAppend(buf, 0, TxBytes(b), afterB);
    TxRoundTrip(buf, 0, a);
    TxRoundTrip(buf, 0, b);
    assert buf[|TxBytes(a)|..] == afterA && buf[|TxBytes(b)|..] == afterB;
  }

  lemma HeaderParts(buf: bytes, pos: nat, h: Header)
    requires HeaderFits(h) && Stands(buf, pos, HeaderBytes(h))
    ensures Stands(buf, pos, Int32Bytes(h.version)) && Stands(buf, pos + 4, h.prevHash) && Stands(buf, pos + 36, h.merkleRoot)
    ensures Stands(buf, pos + 68, FixedLE(h.time, 4)) && Stands(buf, pos + 72, FixedLE(h.bits, 4))
    ensures Stands(buf, pos + 76, FixedLE(h.nonce, 4)) && Stands(buf, pos + 80, h.hashStateRoot)
    ensures Stands(buf, pos + 112, h.hashUTXORoot) && Stands(buf, pos + 144, h.prevOutStakeHash)
    ensures Stands(buf, pos + 176, FixedLE(h.prevOutStakeN, 4)) && Stands(buf, pos + 180, VarLengthBytes(h.vchBlockSig))
    ensures |HeaderBytes(h)| == 180 + |VarLengthBytes(h.vchBlockSig)|
  {
    var t10 := VarLengthBytes(h.vchBlockSig);
    var t9 := FixedLE(h.prevOutStakeN, 4) + t10;
    var t8 := h.prevOutStakeHash + t9;
    var t7 := h.hashUTXORoot + t8;
    var t6 := h.hashStateRoot + t7;
    var t5 := FixedLE(h.nonce, 4) + t6;
    var t4 := FixedLE(h.bits, 4) + t5;
    var t3 := FixedLE(h.time, 4) + t4;
    var t2 := h.merkleRoot + t3;
    StandsAppend(buf, pos, Int32Bytes(h.version), h.prevHash + t2);
    StandsAppend(buf, pos + 4, h.prevHash, t2);
    StandsAppend(buf, pos + 36, h.merkleRoot, t3);
    StandsAppend(buf, pos + 68, FixedLE(h.time, 4), t4);
    StandsAppend(buf, pos + 72, FixedLE(h.bits, 4), t5);
    StandsAppend(buf, pos + 76, FixedLE(h.nonce, 4), t6);
    StandsAppend(buf, pos + 80, h.hashStateRoot, t7);
    StandsAppend(buf, pos + 112, h.hashUTXORoot, t8);
    StandsAppend(buf, pos + 144, h.prevOutStakeHash, t9);
    StandsAppend(buf, pos + 176, FixedLE(h.prevOutStakeN, 4), t10);
  }

  lemma HeaderRoundTrip(buf: bytes, pos: nat, h: Header)
    requires HeaderFits(h) && Stands(buf, pos, HeaderBytes(h))
    ensures ReadHeader(buf, pos) == Got(h, pos + |HeaderBytes(h)|)
  {
    HeaderParts(buf, pos, h);
    Int32RoundTrip(buf, pos, h.version);
    UInt32RoundTrip(buf, pos + 68, h.time);
    UInt32RoundTrip(buf, pos + 72, h.bits);
    UInt32RoundTrip(buf, pos + 76, h.nonce);
    UInt32RoundTrip(buf, pos + 176, h.prevOutStakeN);
    ItemRoundTrip(buf, pos + 180, h.vchBlockSig);
  }

  lemma TransactionReadsBack(buf: bytes, tx: Tx)
    requires TxFits(tx) && Printable(tx) && MarkerConsistent(tx)
    ensures ReadsBack(ReadTx, TxBytesOrNothing, buf, tx)
  {
    forall p: nat | Stands(buf, p, TxBytesOrNothing(tx))
      ensures ReadTx(buf, p) == Got(tx, p + |TxBytesOrNothing(tx)|)
    {
      TxRoundTrip(buf, p, tx);
    }
  }

  lemma TransactionsRoundTrip(buf: bytes, pos: nat, txs: seq<Tx>)
    requires forall tx :: tx in txs ==> TxFits(tx) && Printable(tx) && MarkerConsistent(tx)
    requires Stands(buf, pos, ConcatMap(TxBytesOrNothing, txs))
    ensures ReadList(ReadTx, buf, pos, |txs|) == Got(txs, pos + |ConcatMap(TxBytesOrNothing, txs)|)
  {
    forall tx | tx in txs ensures ReadsBack(ReadTx, TxBytesOrNothing, buf, tx) { TransactionReadsBack(buf, tx); }
    ListRoundTrip(ReadTx, TxBytesOrNothing, buf, pos, txs);
  }

  lemma BlockAssembles(buf: bytes, pos: nat, b: Block, p1: nat, p2: nat, p3: nat)
    requires pos < |buf| && ReadHeader(buf, pos) == Got(b.header, p1)
    requires ReadVarint(buf, p1) == Got(|b.transactions|, p2)
    requires ReadList(ReadTx, buf, p2, |b.transactions|) == Got(b.transactions, p3)
    ensures ReadBlock(buf, pos) == Got(b, p3)
  {
  }

  // A printed block is read back, whatever follows it.
  lemma BlockRoundTrip(buf: bytes, pos: nat, b: Block)
    requires HeaderFits(b.header) && |b.transactions| <= MAX_INEXACT
    requires forall tx :: tx in b.transactions ==> TxFits(tx) && Printable(tx) && MarkerConsistent(tx)
    requires Stands(buf, pos, BlockBytes(b))
    ensures ReadBlock(buf, pos) == Got(b, pos + |BlockBytes(b)|)
  {
    var p1, p2, p3 := BlockReads(buf, pos, b);
    BlockAssembles(buf, pos, b, p1, p2, p3);
  }

  lemma BlockReads(buf: bytes, pos: nat, b: Block) returns (p1: nat, p2: nat, p3: nat)
    requires HeaderFits(b.header) && |b.transactions| <= MAX_INEXACT
    requires forall tx :: tx in b.transactions ==> TxFits(tx) && Printable(tx) && MarkerConsistent(tx)
    requires Stands(buf, pos, BlockBytes(b))
    ensures pos < |buf| && ReadHeader(buf, pos) == Got(b.header, p1) && ReadVarint(buf, p1) == Got(|b.transactions|, p2)
    ensures ReadList(ReadTx, buf, p2, |b.transactions|) == Got(b.transactions, p3) && p3 == pos + |BlockBytes(b)|
  {
    p3 := pos + |BlockBytes(b)|;
    p1 := pos + |HeaderBytes(b.header)|;
    p2 := p1 + |VarintBytes(|b.transactions|)|;
    BlockStands(buf, pos, b, p1, p2);
    HeaderRoundTrip(buf, pos, b.header);
    CountedRoundTrip(buf, b.transactions, p1, p2, p3);
  }

  lemma BlockStands(buf: bytes, pos: nat, b: Block, p1: nat, p2: nat)
    requires |b.transactions| <= MAX_INEXACT && forall tx :: tx in b.transactions ==> TxFits(tx) && Printable(tx)
    requires HeaderFits(b.header) && Stands(buf, pos, BlockBytes(b))
    requires p1 == pos + |HeaderBytes(b.header)| && p2 == p1 + |VarintBytes(|b.transactions|)|
    ensures Stands(buf, pos, HeaderBytes(b.header)) && Stands(buf, p1, VarintBytes(|b.transactions|))
    ensures var txs := ConcatMap(TxBytesOrNothing, b.transactions);
      Stands(buf, p2, txs) && pos + |BlockBytes(b)| == p2 + |txs|
  {
    StandsAppend3(buf, pos, HeaderBytes(b.header), VarintBytes(|b.transactions|),
                  ConcatMap(TxBytesOrNothing, b.transactions), p1, p2);
  }

  lemma CountedRoundTrip(buf: bytes, txs: seq<Tx>, p1: nat, p2: nat, p3: nat)
    requires |txs| <= MAX_INEXACT && forall tx :: tx in txs ==> TxFits(tx) && Printable(tx) && MarkerConsistent(tx)
    requires Stands(buf, p1, VarintBytes(|txs|)) && p2 == p1 + |VarintBytes(|txs|)|
    requires Stands(buf, p2, ConcatMap(TxBytesOrNothing, txs)) && p3 == p2 + |ConcatMap(TxBytesOrNothing, txs)|
    ensures ReadVarint(buf, p1) == Got(|txs|, p2) && ReadList(ReadTx, buf, p2, |txs|) == Got(txs, p3)
  {
    VarintRoundTrip(buf, p1, |txs|);
    TransactionsRoundTrip(buf, p2, txs);
  }
}
