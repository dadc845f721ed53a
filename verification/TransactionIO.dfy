// The transaction reader and writer as the code runs them: loops over a cursor, loops over a buffer list.

module TransactionIO {
  import opened Bytes
  import opened Encoding
  import opened Transactions

  method ParseInput(br: BufferReader) returns (r: Option<TxIn>)
    modifies br
    ensures br.Agrees(r, ReadTxIn(br.buf, old(br.pos)))
  {
    var id := br.ReadRaw(32);
    var index :- br.ReadUIntLE(4);
    var script :- br.ReadVarLengthBuffer();
    var sequence :- br.ReadUIntLE(4);
    r := Some(TxIn(Reverse(id), index, script, sequence));
  }

  method ParseItem(br: BufferReader) returns (r: Option<bytes>)
    modifies br
    ensures br.Agrees(r, ReadItem(br.buf, old(br.pos)))
  {
    var len :- br.ReadVarintNum();
    var b := br.ReadRaw(len);
    r := Some(b);
  }

  method ParseOutput(br: BufferReader) returns (r: Option<TxOut>)
    modifies br
    ensures br.Agrees(r, ReadTxOut(br.buf, old(br.pos)))
  {
    var satoshis :- br.ReadUIntLE(8);
    var script :- ParseItem(br);
    r := Some(TxOut(satoshis, script));
  }

  method ParseInputs(br: BufferReader, count: nat) returns (r: Option<seq<TxIn>>)
    modifies br
    ensures br.Agrees(r, ReadList(ReadTxIn, br.buf, old(br.pos), count))
  {
    var xs: seq<TxIn> := [];
    for i := 0 to count
      invariant ReadList(ReadTxIn, br.buf, old(br.pos), i) == Got(xs, br.pos)
    {
      ReadListSnoc(ReadTxIn, br.buf, old(br.pos), i);
      var x := ParseInput(br);
      if x == None {
        ReadListThrows(ReadTxIn, br.buf, old(br.pos), i + 1, count);
        return None;
      }
      xs := xs + [x.value];
    }
    r := Some(xs);
  }

  method ParseOutputs(br: BufferReader, count: nat) returns (r: Option<seq<TxOut>>)
    modifies br
    ensures br.Agrees(r, ReadList(ReadTxOut, br.buf, old(br.pos), count))
  {
    var xs: seq<TxOut> := [];
    for i := 0 to count
      invariant ReadList(ReadTxOut, br.buf, old(br.pos), i) == Got(xs, br.pos)
    {
      ReadListSnoc(ReadTxOut, br.buf, old(br.pos), i);
      var x := ParseOutput(br);
      if x == None {
        ReadListThrows(ReadTxOut, br.buf, old(br.pos), i + 1, count);
        return None;
      }
      xs := xs + [x.value];
    }
    r := Some(xs);
  }

  method ParseWitness(br: BufferReader) returns (r: Option<seq<bytes>>)
    modifies br
    ensures br.Agrees(r, ReadWitness(br.buf, old(br.pos)))
  {
    var count :- br.ReadVarintNum();
    ghost var start := br.pos;
    var xs: seq<bytes> := [];
    for i := 0 to count
      invariant ReadList(ReadItem, br.buf, start, i) == Got(xs, br.pos)
    {
      ReadListSnoc(ReadItem, br.buf, start, i);
      var x := ParseItem(br);
      if x == None {
        ReadListThrows(ReadItem, br.buf, start, i + 1, count);
        return None;
      }
      xs := xs + [x.value];
    }
    r := Some(xs);
  }

  method ParseWitnessStack(br: BufferReader, count: nat) returns (r: Option<seq<seq<bytes>>>)
    modifies br
    ensures br.Agrees(r, ReadList(ReadWitness, br.buf, old(br.pos), count))
  {
    var xs: seq<seq<bytes>> := [];
    for i := 0 to count
      invariant ReadList(ReadWitness, br.buf, old(br.pos), i) == Got(xs, br.pos)
    {
      ReadListSnoc(ReadWitness, br.buf, old(br.pos), i);
      var x := ParseWitness(br);
      if x == None {
        ReadListThrows(ReadWitness, br.buf, old(br.pos), i + 1, count);
        return None;
      }
      xs := xs + [x.value];
    }
    r := Some(xs);
  }

  method ParseTransaction(br: BufferReader) returns (r: Option<Tx>)
    modifies br
    ensures br.Agrees(r, ReadTx(br.buf, old(br.pos)))
  {
    if br.pos >= |br.buf| { return None; }
    var version :- br.ReadInt32LE();
    var sizeTxIns :- br.ReadVarintNum();
    var dummy, flags := false, None;
    if sizeTxIns == 0 {
      dummy := true;
      var f :- br.ReadUIntLE(1);
      flags := Some(f);
      sizeTxIns :- br.ReadVarintNum();
    }
    var inputs :- ParseInputs(br, sizeTxIns);
    var sizeTxOuts :- br.ReadVarintNum();
    var outputs :- ParseOutputs(br, sizeTxOuts);
    var witnessStack: seq<seq<bytes>> := [];
    if flags.Some? && flags.value != 0 {
      witnessStack :- ParseWitnessStack(br, sizeTxIns);
    }
    var nLockTime :- br.ReadUIntLE(4);
    r := Some(Tx(version, dummy, flags, inputs, outputs, witnessStack, nLockTime));
  }

  // ----- writers -----

  method WriteVarLength(w: BufferWriter, b: bytes)
    requires |b| < Pow256(8)
    modifies w
    ensures w.Contents() == old(w.Contents()) + VarLengthBytes(b)
  {
    w.WriteVarintNum(|b|);
    w.Write(b);
    Concat3(old(w.Contents()), VarintBytes(|b|), b);
  }

  method WriteInput(w: BufferWriter, i: TxIn)
    requires |i.script| < Pow256(8)
    modifies w
    ensures w.Contents() == old(w.Contents()) + TxInBytes(i)
  {
    w.WriteReverse(i.prevTxId);
    w.WriteUIntLE(i.outputIndex, 4);
    WriteVarLength(w, i.script);
    w.WriteUIntLE(i.sequence, 4);
    Concat4(old(w.Contents()), Reverse(i.prevTxId), FixedLE(i.outputIndex, 4), VarLengthBytes(i.script), FixedLE(i.sequence, 4));
  }

  lemma Concat4(x: bytes, a: bytes, b: bytes, c: bytes, d: bytes)
    ensures x + a + b + c + d == x + (a + (b + (c + d)))
  {
  }

  method WriteOutput(w: BufferWriter, o: TxOut)
    requires |o.script| < Pow256(8)
    modifies w
    ensures w.Contents() == old(w.Contents()) + TxOutBytes(o)
  {
    w.WriteUInt64LE(o.satoshis);
    WriteVarLength(w, o.script);
    Concat3(old(w.Contents()), UInt64Bytes(o.satoshis), VarLengthBytes(o.script));
  }

  method WriteWitness(w: BufferWriter, items: seq<bytes>)
    requires WitnessFits(items)
    modifies w
    ensures w.Contents() == old(w.Contents()) + WitnessBytes(items)
  {
    Powers();
    w.WriteVarintNum(|items|);
    ghost var head := w.Contents();
    for k := 0 to |items|
      invariant w.Contents() == head + ConcatMap(VarLengthBytes, items[..k])
    {
      ConcatMapStep(VarLengthBytes, items, k, head);
      assert items[k] in items;
      WriteVarLength(w, items[k]);
    }
    assert items[..|items|] == items;
    Concat3(old(w.Contents()), VarintBytes(|items|), ConcatMap(VarLengthBytes, items));
  }

  method WriteInputs(w: BufferWriter, inputs: seq<TxIn>)
    requires |inputs| < Pow256(8) && forall i :: i in inputs ==> |i.script| < Pow256(8)
    modifies w
    ensures w.Contents() == old(w.Contents()) + (VarintBytes(|inputs|) + ConcatMap(TxInBytes, inputs))
  {
    w.WriteVarintNum(|inputs|);
    ghost var head := w.Contents();
    for k := 0 to |inputs|
      invariant w.Contents() == head + ConcatMap(TxInBytes, inputs[..k])
    {
      ConcatMapStep(TxInBytes, inputs, k, head);
      WriteInput(w, inputs[k]);
    }
    assert inputs[..|inputs|] == inputs;
    Concat3(old(w.Contents()), VarintBytes(|inputs|), ConcatMap(TxInBytes, inputs));
  }

  method WriteOutputs(w: BufferWriter, outputs: seq<TxOut>)
    requires |outputs| < Pow256(8) && forall o :: o in outputs ==> |o.script| < Pow256(8)
    modifies w
    ensures w.Contents() == old(w.Contents()) + (VarintBytes(|outputs|) + ConcatMap(TxOutBytes, outputs))
  {
    w.WriteVarintNum(|outputs|);
    ghost var head := w.Contents();
    for k := 0 to |outputs|
      invariant w.Contents() == head + ConcatMap(TxOutBytes, outputs[..k])
    {
      ConcatMapStep(TxOutBytes, outputs, k, head);
      WriteOutput(w, outputs[k]);
    }
    assert outputs[..|outputs|] == outputs;
    Concat3(old(w.Contents()), VarintBytes(|outputs|), ConcatMap(TxOutBytes, outputs));
  }

  method WriteWitnessStack(w: BufferWriter, stack: seq<seq<bytes>>)
    requires forall items :: items in stack ==> WitnessFits(items)
    modifies w
    ensures w.Contents() == old(w.Contents()) + ConcatMap(WitnessBytes, stack)
  {
    ghost var head := w.Contents();
    for k := 0 to |stack|
      invariant w.Contents() == head + ConcatMap(WitnessBytes, stack[..k])
    {
      ConcatMapStep(WitnessBytes, stack, k, head);
      WriteWitness(w, stack[k]);
    }
    assert stack[..|stack|] == stack;
  }

  method WriteMarker(w: BufferWriter, tx: Tx)
    modifies w
    ensures w.Contents() == old(w.Contents()) + MarkerBytes(tx)
  {
    if tx.dummy {
      w.Write([0]);
    }
    if tx.flags.Some? {
      w.Write([if tx.flags.value != 0 then 1 else 0]);
    }
    assert w.Contents() == old(w.Contents()) + MarkerBytes(tx);
  }

  method WriteWitnessSection(w: BufferWriter, tx: Tx)
    requires TxFits(tx) && Printable(tx)
    modifies w
    ensures w.Contents() == old(w.Contents()) + WitnessSection(tx)
  {
    if Flagged(tx) {
      assert tx.witnessStack[..|tx.inputs|] == tx.witnessStack;
      WriteWitnessStack(w, tx.witnessStack[..|tx.inputs|]);
    }
  }

  method WriteTransaction(w: BufferWriter, tx: Tx)
    requires TxFits(tx) && Printable(tx)
    modifies w
    ensures w.Contents() == old(w.Contents()) + TxBytes(tx)
  {
    Powers();
    w.WriteInt32LE(tx.version);
    WriteMarker(w, tx);
    WriteInputs(w, tx.inputs);
    WriteOutputs(w, tx.outputs);
    WriteWitnessSection(w, tx);
    w.WriteUIntLE(tx.nLockTime, 4);
    TxConcat(old(w.Contents()), tx);
  }

  lemma TxConcat(x: bytes, tx: Tx)
    requires Printable(tx)
    ensures x + Int32Bytes(tx.version) + MarkerBytes(tx) + (VarintBytes(|tx.inputs|) + ConcatMap(TxInBytes, tx.inputs))
          + (VarintBytes(|tx.outputs|) + ConcatMap(TxOutBytes, tx.outputs)) + WitnessSection(tx) + FixedLE(tx.nLockTime, 4)
         == x + TxBytes(tx)
  {
    Concat8(x, Int32Bytes(tx.version), MarkerBytes(tx), VarintBytes(|tx.inputs|), ConcatMap(TxInBytes, tx.inputs),
            VarintBytes(|tx.outputs|), ConcatMap(TxOutBytes, tx.outputs), WitnessSection(tx), FixedLE(tx.nLockTime, 4));
  }

  lemma Concat8(x: bytes, a: bytes, b: bytes, c: bytes, d: bytes, e: bytes, f: bytes, g: bytes, h: bytes)
    ensures x + a + b + (c + d) + (e + f) + g + h == x + (a + (b + (c + (d + (e + (f + (g + h)))))))
  {
  }
}
