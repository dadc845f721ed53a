// The transaction builder (transaction/transaction.js): outputs, fees and a change output recomputed after each edit.

module Builder {
  import opened Bytes
  import opened Script
  import opened Opcode
  import Transactions

  // What an input spends, and how large its signature script will be.
  datatype Kind = PublicKeyHash | PublicKey | Multisig(threshold: nat) | ScriptHashMultisig(threshold: nat, keys: nat)
  datatype In = In(txId: bytes, outputIndex: nat, satoshis: nat, kind: Kind)
  datatype Out = Out(script: bytes, satoshis: int)

  type Hash160 = h: bytes | |h| == 20 witness NO_HASH
  const NO_HASH: bytes := seq(20, _ => 0)

  datatype Address = PayToPublicKeyHash(hash: Hash160) | PayToScriptHash(hash: Hash160)

  // A missing rate, like a rate of zero, stands for the default.
  datatype Builder = Builder(inputs: seq<In>, outputs: seq<Out>, changeScript: Option<bytes>, changeIndex: Option<nat>,
                             fixedFee: Option<int>, feePerKb: Option<int>)

  const MAXIMUM_EXTRA_SIZE := 4 + 9 + 9 + 4
  const CHANGE_OUTPUT_MAX_SIZE := 20 + 4 + 34 + 4
  const FEE_PER_KB := 10000
  const FEE_SECURITY_MARGIN := 15

  // ----- sums and sizes -----

  function SumBy<T>(f: T -> int, s: seq<T>): int
  {
    if s == [] then 0 else SumBy(f, s[..|s| - 1]) + f(s[|s| - 1])
  }

  function InValue(i: In): int { i.satoshis }
  function OutValue(o: Out): int { o.satoshis }
  function OutSize(o: Out): int { |o.script| + 9 }

  function InSize(i: In): int
  {
    match i.kind
    case PublicKeyHash => 73 + 34
    case PublicKey => 73
    case Multisig(m) => 1 + m * 73
    case ScriptHashMultisig(m, n) => 7 + m * 74 + n * 34
  }

  function InputSum(ins: seq<In>): int { SumBy(InValue, ins) }
  function OutputSum(outs: seq<Out>): int { SumBy(OutValue, outs) }
  function Unspent(b: Builder): int { InputSum(b.inputs) - OutputSum(b.outputs) }

  function EstimatedSize(b: Builder): int { MAXIMUM_EXTRA_SIZE + SumBy(InSize, b.inputs) + SumBy(OutSize, b.outputs) }

  // ----- fees -----

  function Kilobytes(size: int): int { (size + 999) / 1000 }

  function Rate(feePerKb: Option<int>): int
  {
    if feePerKb.None? || feePerKb.value == 0 then FEE_PER_KB else feePerKb.value
  }

  // The fee by size, with room for a change output where something would be left for it.
  function FeeFor(size: int, available: int, rate: int): int
  {
    if available > Kilobytes(size) * rate then Kilobytes(size + CHANGE_OUTPUT_MAX_SIZE) * rate else Kilobytes(size) * rate
  }

  function EstimatedFee(b: Builder): int { FeeFor(EstimatedSize(b), Unspent(b), Rate(b.feePerKb)) }

  predicate IsNull(i: In) { Transactions.IsNullOutpoint(i.txId, i.outputIndex) }

  predicate IsCoinbase(b: Builder) { |b.inputs| == 1 && IsNull(b.inputs[0]) }

  function GetFee(b: Builder): int
  {
    if IsCoinbase(b) then 0
    else if b.fixedFee.Some? then b.fixedFee.value
    else if b.changeScript.None? then Unspent(b)
    else EstimatedFee(b)
  }

  datatype FeeError = NoError | Different | ChangeAddressMissing | TooLarge | TooSmall

  // What serialisation objects to in the fee; unspent is what the outputs leave.
  function HasFeeError(b: Builder, unspent: int): FeeError
  {
    if b.fixedFee.Some? && b.fixedFee.value != unspent then Different
    else if unspent > FEE_SECURITY_MARGIN * EstimatedFee(b) then if b.changeScript.None? then ChangeAddressMissing else TooLarge
    else if FEE_SECURITY_MARGIN * unspent < EstimatedFee(b) then TooSmall
    else NoError
  }

  // Nothing is wrong with a fee exactly if it is the one that was set, if one was, and no more than fifteen times the
  // estimate and no less than a fifteenth of it; a fee other than the one set is told apart from all else.
  lemma FeeErrorIff(b: Builder, unspent: int)
    ensures HasFeeError(b, unspent) == NoError <==>
      && (b.fixedFee.Some? ==> unspent == b.fixedFee.value)
      && unspent <= 15 * EstimatedFee(b) && EstimatedFee(b) <= 15 * unspent
    ensures HasFeeError(b, unspent) == Different <==> b.fixedFee.Some? && unspent != b.fixedFee.value
    ensures HasFeeError(b, unspent) == ChangeAddressMissing ==> b.changeScript.None? && unspent > 15 * EstimatedFee(b)
    ensures HasFeeError(b, unspent) == TooLarge ==> b.changeScript.Some? && unspent > 15 * EstimatedFee(b)
    ensures HasFeeError(b, unspent) == TooSmall ==> EstimatedFee(b) > 15 * unspent
  {
  }

  // With a positive rate the estimate pays the rate for every kilobyte begun, of the transaction or of it with a change
  // output, and the change is paid for wherever something would be left. A rate that is missing or zero is 10000.
  lemma EstimateBounds(b: Builder)
    requires Rate(b.feePerKb) > 0
    ensures b.feePerKb.None? || b.feePerKb == Some(0) ==> Rate(b.feePerKb) == 10000
    ensures var plain := Kilobytes(EstimatedSize(b)) * Rate(b.feePerKb);
      && 1000 * plain >= EstimatedSize(b) * Rate(b.feePerKb)
      && (Unspent(b) <= plain ==> EstimatedFee(b) == plain)
      && (Unspent(b) > plain ==>
        && EstimatedFee(b) >= plain
        && 1000 * EstimatedFee(b) >= (EstimatedSize(b) + 62) * Rate(b.feePerKb)
        && 1000 * EstimatedFee(b) < (EstimatedSize(b) + 62 + 1000) * Rate(b.feePerKb))
  {
    var size, rate := EstimatedSize(b), Rate(b.feePerKb);
    Paid(size, rate);
    Paid(size + CHANGE_OUTPUT_MAX_SIZE, rate);
    KilobytesSteps(size, CHANGE_OUTPUT_MAX_SIZE);
    Scaled(Kilobytes(size), Kilobytes(size + CHANGE_OUTPUT_MAX_SIZE), rate);
  }

  lemma Paid(size: int, rate: int)
    requires rate > 0
    ensures size * rate <= 1000 * (Kilobytes(size) * rate) < (size + 1000) * rate
  {
    var k := Kilobytes(size);
    assert size <= 1000 * k < size + 1000;
    Scaled(size, 1000 * k, rate);
    Scaled(1000 * k, size + 1000, rate);
    assert 1000 * (k * rate) == (1000 * k) * rate;
  }

  // ----- what the fee is -----

  // Without a change script the fee is all that is left; with one and a fee that was set, exactly that fee is left, and
  // nothing in a coinbase.
  lemma FeeIsWhatIsLeft(b: Builder)
    requires Inv(b)
    ensures IsCoinbase(b) && b.changeIndex.Some? ==> InputSum(b.inputs) == OutputSum(b.outputs)
    ensures !IsCoinbase(b) && b.fixedFee.None? && b.changeScript.None? ==> InputSum(b.inputs) == OutputSum(b.outputs) + GetFee(b)
    ensures !IsCoinbase(b) && b.fixedFee.Some? && b.changeIndex.Some? ==> InputSum(b.inputs) == OutputSum(b.outputs) + b.fixedFee.value
  {
    if b.changeIndex.Some? { WithChange(b); }
  }

  // ----- edits -----

  function Without<T>(s: seq<T>, i: nat): seq<T>
  {
    if i < |s| then s[..i] + s[i + 1..] else s
  }

  // Takes the old change output out, and puts the remainder at the end if it is positive.
  function UpdateChange(b: Builder): Builder
  {
    if b.changeScript.None? then b
    else
      var base := if b.changeIndex.Some? then b.(outputs := Without(b.outputs, b.changeIndex.value)) else b;
      var amount := Unspent(base) - GetFee(base);
      if amount > 0 then
        base.(outputs := base.outputs + [Out(b.changeScript.value, amount)], changeIndex := Some(|base.outputs|))
      else base.(changeIndex := None)
  }

  function AddressScript(a: Address): bytes
  {
    match a
    case PayToPublicKeyHash(h) => ToBuffer(PublicKeyHashOut(h))
    case PayToScriptHash(h) => ToBuffer([Plain(OP_HASH160), PushOf(h), Plain(OP_EQUAL)])
  }

  datatype Edit =
    | From(utxo: In)
    | AddOutput(output: Out)
    | Change(address: Address)
    | Fee(amount: int)
    | FeePerKb(rate: int)
    | ClearOutputs
    | RemoveOutput(index: nat)
    | RemoveInput(index: nat)
    | SortOutputs(order: seq<Out>)
    | SortInputs(inputOrder: seq<In>)

  predicate Spends(ins: seq<In>, utxo: In)
  {
    exists k :: 0 <= k < |ins| && ins[k].txId == utxo.txId && ins[k].outputIndex == utxo.outputIndex
  }

  function FirstIndex(outs: seq<Out>, o: Out): (i: nat)
    requires o in outs
    ensures i < |outs| && outs[i] == o
  {
    if outs[0] == o then 0 else 1 + FirstIndex(outs[1..], o)
  }

  // A sort gives the same outputs or inputs in another order.
  predicate Enabled(b: Builder, e: Edit)
  {
    match e
    case RemoveInput(i) => i < |b.inputs|
    case SortOutputs(order) => multiset(order) == multiset(b.outputs)
    case SortInputs(order) => multiset(order) == multiset(b.inputs)
    case _ => true
  }

  predicate ChangeInside(b: Builder) { b.changeIndex.Some? ==> b.changeIndex.value < |b.outputs| }

  function Reordered(b: Builder, order: seq<Out>): Builder
    requires ChangeInside(b) && multiset(order) == multiset(b.outputs)
  {
    if b.changeIndex.None? then b.(outputs := order)
    else
      var change := b.outputs[b.changeIndex.value];
      assert change in multiset(b.outputs);
      b.(outputs := order, changeIndex := Some(FirstIndex(order, change)))
  }

  function Removed(b: Builder, i: nat): Builder
  {
    UpdateChange(b.(outputs := Without(b.outputs, i)))
  }

  function Apply(b: Builder, e: Edit): Builder
    requires Enabled(b, e) && ChangeInside(b)
  {
    match e
    case From(utxo) => if Spends(b.inputs, utxo) then b else UpdateChange(b.(inputs := b.inputs + [utxo]))
    case AddOutput(o) => UpdateChange(b.(outputs := b.outputs + [o]))
    case Change(a) => UpdateChange(b.(changeScript := Some(AddressScript(a))))
    case Fee(f) => UpdateChange(b.(fixedFee := Some(f)))
    case FeePerKb(r) => UpdateChange(b.(feePerKb := Some(r)))
    case ClearOutputs => UpdateChange(b.(outputs := [], changeIndex := None))
    case RemoveOutput(i) => Removed(b, i)
    case RemoveInput(i) => UpdateChange(b.(inputs := Without(b.inputs, i)))
    case SortOutputs(order) => Reordered(b, order)
    case SortInputs(order) => b.(inputs := order)
  }

  // ----- sums over edited sequences -----

  lemma {:induction false} SumAppend<T>(f: T -> int, xs: seq<T>, ys: seq<T>)
    ensures SumBy(f, xs + ys) == SumBy(f, xs) + SumBy(f, ys)
  {
    if ys == [] {
      assert xs + ys == xs;
    } else {
      SumAppend(f, xs, ys[..|ys| - 1]);
      assert (xs + ys)[..|xs + ys| - 1] == xs + ys[..|ys| - 1];
    }
  }

  lemma SumMiddle<T>(f: T -> int, before: seq<T>, x: T, after: seq<T>)
    ensures SumBy(f, before + [x] + after) == SumBy(f, before + after) + f(x)
  {
    SumAppend(f, before + [x], after);
    SumAppend(f, before, after);
    assert (before + [x])[..|before|] == before;
  }

  lemma TakenApart<T>(s: seq<T>, i: nat)
    requires i < |s|
    ensures s == s[..i] + [s[i]] + s[i + 1..] && Without(s, i) == s[..i] + s[i + 1..]
  {
  }

  lemma SumWithout<T>(f: T -> int, s: seq<T>, i: nat)
    requires i < |s|
    ensures SumBy(f, s) == SumBy(f, Without(s, i)) + f(s[i])
  {
    SumMiddle(f, s[..i], s[i], s[i + 1..]);
    TakenApart(s, i);
  }

  lemma {:induction false} SumNotNegative<T>(f: T -> int, s: seq<T>)
    requires forall x :: f(x) >= 0
    ensures SumBy(f, s) >= 0
  {
    if s != [] { SumNotNegative(f, s[..|s| - 1]); }
  }

  lemma BagWithout<T>(s: seq<T>, i: nat)
    requires i < |s|
    ensures multiset(Without(s, i)) == multiset(s) - multiset{s[i]}
  {
    assert s == s[..i] + [s[i]] + s[i + 1..];
  }

  // Of two sequences with the same elements, the last of one stands somewhere in the other, and the rests are alike.
  lemma LastOf<T>(xs: seq<T>, ys: seq<T>) returns (i: nat)
    requires multiset(xs) == multiset(ys) && xs != []
    ensures i < |ys| && ys[i] == xs[|xs| - 1]
    ensures multiset(xs[..|xs| - 1]) == multiset(Without(ys, i))
  {
    var n := |xs| - 1;
    assert xs[n] in multiset(ys);
    i :| 0 <= i < |ys| && ys[i] == xs[n];
    assert Without(xs, n) == xs[..n];
    BagWithout(xs, n);
    BagWithout(ys, i);
  }

  lemma SameBagEmpty<T>(xs: seq<T>, ys: seq<T>)
    requires multiset(xs) == multiset(ys) && xs == []
    ensures ys == []
  {
    assert |multiset(ys)| == |ys|;
  }

  // A sum depends on what is in the sequence, not on its order.
  lemma {:induction false} SumSameBag<T>(f: T -> int, xs: seq<T>, ys: seq<T>)
    requires multiset(xs) == multiset(ys)
    ensures SumBy(f, xs) == SumBy(f, ys)
    decreases |xs|
  {
    if xs == [] {
      SameBagEmpty(xs, ys);
    } else {
      var i := LastOf(xs, ys);
      SumWithout(f, ys, i);
      SumSameBag(f, xs[..|xs| - 1], Without(ys, i));
    }
  }

  lemma SortedInputsCoinbase(b: Builder, order: seq<In>)
    requires multiset(order) == multiset(b.inputs)
    ensures IsCoinbase(b.(inputs := order)) == IsCoinbase(b)
  {
    assert |multiset(order)| == |multiset(b.inputs)|;
    if |order| == 1 {
      assert order == [order[0]] && b.inputs == [b.inputs[0]];
      assert order[0] in multiset(b.inputs);
    }
  }

  // ----- what every edit keeps -----

  // The outputs the user asked for: all but the change.
  function User(b: Builder): seq<Out>
  {
    if b.changeIndex.Some? then Without(b.outputs, b.changeIndex.value) else b.outputs
  }

  // The builder without its change output.
  function Base(b: Builder): Builder { b.(outputs := User(b), changeIndex := None) }

  function Remainder(b: Builder): int { Unspent(Base(b)) - GetFee(Base(b)) }

  // A change output carries the change script and the exact remainder; there is one exactly where a script is set and
  // something remains.
  predicate Inv(b: Builder)
  {
    && (b.changeScript.None? ==> b.changeIndex.None?)
    && (b.changeScript.Some? && b.changeIndex.None? ==> Remainder(b) <= 0)
    && (b.changeIndex.Some? ==>
      && b.changeIndex.value < |b.outputs| && Remainder(b) > 0
      && b.outputs[b.changeIndex.value] == Out(b.changeScript.value, Remainder(b)))
  }

  // Recomputing the change establishes it from any state.
  lemma UpdateKeeps(b: Builder)
    requires b.changeScript.None? ==> b.changeIndex.None?
    ensures Inv(UpdateChange(b)) && User(UpdateChange(b)) == if b.changeScript.Some? then User(b) else b.outputs
  {
    var r := UpdateChange(b);
    if r.changeIndex.Some? && b.changeScript.Some? {
      assert Without(r.outputs, r.changeIndex.value) == User(b);
      assert Base(r) == Base(b);
    }
  }

  function Empty(): Builder { Builder([], [], None, None, None, None) }

  // ----- the fee is a fixed point -----

  lemma WithChange(b: Builder)
    requires Inv(b) && b.changeIndex.Some?
    ensures Unspent(b) == GetFee(Base(b))
    ensures EstimatedSize(b) == EstimatedSize(Base(b)) + |b.changeScript.value| + 9
  {
    SumWithout(OutValue, b.outputs, b.changeIndex.value);
    SumWithout(OutSize, b.outputs, b.changeIndex.value);
  }

  lemma Scaled(x: int, y: int, r: int)
    ensures x < y && r > 0 ==> x * r < y * r
    ensures x < y && r < 0 ==> x * r > y * r
    ensures x == y ==> x * r == y * r
  {
  }

  lemma KilobytesSteps(size: int, c: nat)
    requires c <= CHANGE_OUTPUT_MAX_SIZE
    ensures Kilobytes(size) <= Kilobytes(size + c) <= Kilobytes(size + CHANGE_OUTPUT_MAX_SIZE)
    ensures Kilobytes(size + c) < Kilobytes(size + CHANGE_OUTPUT_MAX_SIZE)
      ==> Kilobytes(size + c + CHANGE_OUTPUT_MAX_SIZE) == Kilobytes(size + CHANGE_OUTPUT_MAX_SIZE)
  {
  }

  // Estimating again, with the change in place and the fee as all that is left, gives the fee deducted; for a negative
  // rate only where both sizes round up to the same number of kilobytes.
  lemma FeeForFixed(size: int, c: nat, available: int, rate: int)
    requires c <= CHANGE_OUTPUT_MAX_SIZE && rate != 0 && available > FeeFor(size, available, rate)
    ensures var fee := FeeFor(size, available, rate);
      FeeFor(size + c, fee, rate) == fee <==>
        rate > 0 || Kilobytes(size + c) == Kilobytes(size + CHANGE_OUTPUT_MAX_SIZE)
  {
    var small, large := Kilobytes(size + c), Kilobytes(size + CHANGE_OUTPUT_MAX_SIZE);
    KilobytesSteps(size, c);
    Scaled(small, large, rate);
  }

  // What the transaction spends is what it pays plus its fee, and recomputing the fee gives the one deducted.
  lemma ChangeBalances(b: Builder)
    requires Inv(b) && b.changeIndex.Some? && |b.changeScript.value| + 9 <= CHANGE_OUTPUT_MAX_SIZE
    ensures InputSum(b.inputs) == OutputSum(b.outputs) + GetFee(Base(b))
    ensures GetFee(b) == GetFee(Base(b)) <==>
      || IsCoinbase(b) || b.fixedFee.Some? || Rate(b.feePerKb) > 0
      || Kilobytes(EstimatedSize(b)) == Kilobytes(EstimatedSize(Base(b)) + CHANGE_OUTPUT_MAX_SIZE)
  {
    WithChange(b);
    if !IsCoinbase(b) && b.fixedFee.None? {
      FeeForFixed(EstimatedSize(Base(b)), |b.changeScript.value| + 9, Unspent(Base(b)), Rate(b.feePerKb));
    }
  }

  // So, with a positive rate and no fixed fee, serialisation finds nothing wrong with the fee.
  lemma NoFeeError(b: Builder)
    requires Inv(b) && b.changeIndex.Some? && |b.changeScript.value| + 9 <= CHANGE_OUTPUT_MAX_SIZE
    requires !IsCoinbase(b) && b.fixedFee.None? && Rate(b.feePerKb) > 0
    ensures Unspent(b) == GetFee(b) > 0 && HasFeeError(b, Unspent(b)) == NoError
  {
    WithChange(b);
    ChangeBalances(b);
    SumNotNegative(InSize, b.inputs);
    SumNotNegative(OutSize, b.outputs);
    var k := Kilobytes(EstimatedSize(b));
    Scaled(0, k, Rate(b.feePerKb));
    Scaled(0, Kilobytes(EstimatedSize(b) + CHANGE_OUTPUT_MAX_SIZE), Rate(b.feePerKb));
  }

  // The change script of an address takes 25 or 23 bytes, so its output fits the size set aside for it.
  lemma AddressScriptIsShort(a: Address)
    ensures |AddressScript(a)| == if a.PayToPublicKeyHash? then 25 else 23
    ensures |AddressScript(a)| + 9 <= CHANGE_OUTPUT_MAX_SIZE
  {
    if a.PayToPublicKeyHash? {
      var front, back := [Plain(OP_DUP), Plain(OP_HASH160)], [Plain(OP_EQUALVERIFY), Plain(OP_CHECKSIG)];
      assert PublicKeyHashOut(a.hash) == front + [PushOf(a.hash)] + back;
      AroundPush(front, a.hash, back);
      TwoPlain(OP_DUP, OP_HASH160);
      TwoPlain(OP_EQUALVERIFY, OP_CHECKSIG);
    } else {
      assert [Plain(OP_HASH160), PushOf(a.hash), Plain(OP_EQUAL)] == [Plain(OP_HASH160)] + [PushOf(a.hash)] + [Plain(OP_EQUAL)];
      AroundPush([Plain(OP_HASH160)], a.hash, [Plain(OP_EQUAL)]);
      OnePlain(OP_HASH160);
      OnePlain(OP_EQUAL);
    }
  }

  lemma AroundPush(front: seq<Chunk>, h: Hash160, back: seq<Chunk>)
    ensures |ToBuffer(front + [PushOf(h)] + back)| == |ToBuffer(front)| + 21 + |ToBuffer(back)|
  {
    ToBufferAppend(front + [PushOf(h)], back);
    ToBufferAppend(front, [PushOf(h)]);
    assert [PushOf(h)][1..] == [];
    assert ToBuffer([PushOf(h)]) == ChunkBytes(PushOf(h)) + ToBuffer([]);
  }

  lemma OnePlain(op: byte)
    ensures |ToBuffer([Plain(op)])| == 1
  {
    assert [Plain(op)][1..] == [];
    assert ToBuffer([Plain(op)]) == ChunkBytes(Plain(op)) + ToBuffer([]);
  }

  lemma TwoPlain(x: byte, y: byte)
    ensures |ToBuffer([Plain(x), Plain(y)])| == 2
  {
    ToBufferAppend([Plain(x)], [Plain(y)]);
    OnePlain(x);
    OnePlain(y);
    assert [Plain(x), Plain(y)] == [Plain(x)] + [Plain(y)];
  }

  // ----- every edit -----

  predicate Harmless(e: Edit) { !e.RemoveOutput? }

  // What an edit asks of the user's outputs.
  function Wanted(user: seq<Out>, e: Edit): seq<Out>
  {
    match e
    case AddOutput(o) => user + [o]
    case ClearOutputs => []
    case _ => user
  }

  lemma SortedOutputsKeep(b: Builder, outs: seq<Out>, index: Option<nat>)
    requires Inv(b) && multiset(outs) == multiset(b.outputs) && index.Some? == b.changeIndex.Some?
    requires index.Some? ==> index.value < |outs| && outs[index.value] == b.outputs[b.changeIndex.value]
    ensures var r := b.(outputs := outs, changeIndex := index); Inv(r) && multiset(User(r)) == multiset(User(b))
  {
    var r := b.(outputs := outs, changeIndex := index);
    if index.Some? {
      BagWithout(outs, index.value);
      BagWithout(b.outputs, b.changeIndex.value);
    }
    SameRemainder(b, Base(b).outputs, User(r));
  }

  lemma SameRemainder(b: Builder, xs: seq<Out>, ys: seq<Out>)
    requires multiset(xs) == multiset(ys)
    ensures var x, y := b.(outputs := xs, changeIndex := None), b.(outputs := ys, changeIndex := None);
      Unspent(x) - GetFee(x) == Unspent(y) - GetFee(y)
  {
    SumSameBag(OutValue, xs, ys);
    SumSameBag(OutSize, xs, ys);
  }

  lemma SortedInputsKeep(b: Builder, order: seq<In>)
    requires Inv(b) && multiset(order) == multiset(b.inputs)
    ensures Inv(b.(inputs := order))
  {
    SumSameBag(InValue, order, b.inputs);
    SumSameBag(InSize, order, b.inputs);
    SortedInputsCoinbase(Base(b), order);
  }

  lemma UpdatingEditKeeps(b: Builder, e: Edit)
    requires Inv(b) && Enabled(b, e) && !e.SortOutputs? && !e.SortInputs?
    ensures Inv(Apply(b, e))
    ensures Harmless(e) ==> User(Apply(b, e)) == Wanted(User(b), e)
  {
    match e
    case From(utxo) => UpdateKeeps(b.(inputs := b.inputs + [utxo]));
    case AddOutput(o) =>
      var added := b.(outputs := b.outputs + [o]);
      UpdateKeeps(added);
      assert User(added) == User(b) + [o];
    case Change(a) => UpdateKeeps(b.(changeScript := Some(AddressScript(a))));
    case Fee(f) => UpdateKeeps(b.(fixedFee := Some(f)));
    case FeePerKb(r) => UpdateKeeps(b.(feePerKb := Some(r)));
    case ClearOutputs => UpdateKeeps(b.(outputs := [], changeIndex := None));
    case RemoveOutput(i) => UpdateKeeps(b.(outputs := Without(b.outputs, i)));
    case RemoveInput(i) => UpdateKeeps(b.(inputs := Without(b.inputs, i)));
  }

  // Every edit keeps the change exact; every edit but removeOutput treats the user's outputs as asked, where a sort may
  // change their order.
  lemma EditKeeps(b: Builder, e: Edit)
    requires Inv(b) && Enabled(b, e)
    ensures Inv(Apply(b, e))
    ensures Harmless(e) ==> multiset(User(Apply(b, e))) == multiset(Wanted(User(b), e))
    ensures Harmless(e) && !e.SortOutputs? ==> User(Apply(b, e)) == Wanted(User(b), e)
  {
    if e.SortOutputs? {
      SortedOutputsKeep(b, e.order, Reordered(b, e.order).changeIndex);
    } else if e.SortInputs? {
      SortedInputsKeep(b, e.inputOrder);
    } else {
      UpdatingEditKeeps(b, e);
    }
  }

  predicate Possible(b: Builder, es: seq<Edit>)
    decreases |es|
  {
    es == [] || (ChangeInside(b) && Enabled(b, es[0]) && Possible(Apply(b, es[0]), es[1..]))
  }

  function ApplyAll(b: Builder, es: seq<Edit>): Builder
    requires Possible(b, es)
    decreases |es|
  {
    if es == [] then b else ApplyAll(Apply(b, es[0]), es[1..])
  }

  function WantedAll(user: seq<Out>, es: seq<Edit>): seq<Out>
    decreases |es|
  {
    if es == [] then user else WantedAll(Wanted(user, es[0]), es[1..])
  }

  lemma {:induction false} WantedSameBag(xs: seq<Out>, ys: seq<Out>, es: seq<Edit>)
    requires multiset(xs) == multiset(ys)
    ensures multiset(WantedAll(xs, es)) == multiset(WantedAll(ys, es))
    decreases |es|
  {
    if es != [] { WantedSameBag(Wanted(xs, es[0]), Wanted(ys, es[0]), es[1..]); }
  }

  // Over every run: the change is the exact remainder, and without removeOutput the user's outputs are the ones asked
  // for, in order as long as nothing sorts them.
  lemma {:induction false} RunKeeps(b: Builder, es: seq<Edit>)
    requires Inv(b) && Possible(b, es)
    ensures Inv(ApplyAll(b, es))
    ensures (forall e :: e in es ==> Harmless(e)) ==> multiset(User(ApplyAll(b, es))) == multiset(WantedAll(User(b), es))
    ensures (forall e :: e in es ==> Harmless(e) && !e.SortOutputs?) ==> User(ApplyAll(b, es)) == WantedAll(User(b), es)
    decreases |es|
  {
    if es != [] {
      EditKeeps(b, es[0]);
      RunKeeps(Apply(b, es[0]), es[1..]);
      if Harmless(es[0]) {
        WantedSameBag(User(Apply(b, es[0])), Wanted(User(b), es[0]), es[1..]);
      }
    }
  }

  // A change script is always the script of an address.
  ghost predicate ChangeFromAddress(b: Builder)
  {
    b.changeScript.Some? ==> exists a :: b.changeScript.value == AddressScript(a)
  }

  lemma EditKeepsChangeScript(b: Builder, e: Edit)
    requires ChangeInside(b) && Enabled(b, e) && ChangeFromAddress(b)
    ensures ChangeFromAddress(Apply(b, e))
  {
    assert Apply(b, e).changeScript == if e.Change? then Some(AddressScript(e.address)) else b.changeScript;
  }

  lemma {:induction false} RunKeepsChangeScript(b: Builder, es: seq<Edit>)
    requires Possible(b, es) && ChangeFromAddress(b)
    ensures ChangeFromAddress(ApplyAll(b, es))
    decreases |es|
  {
    if es != [] {
      EditKeepsChangeScript(b, es[0]);
      RunKeepsChangeScript(Apply(b, es[0]), es[1..]);
    }
  }

  function New(): Builder { Builder([], [], None, None, None, None) }

  // Over every run from a new transaction, removals included: with a change output inputs equal outputs plus the fee
  // deducted, and with a positive rate and no fixed fee that is the fee computed again and serialisation finds nothing
  // wrong with it.
  lemma RunsHaveNoFeeError(es: seq<Edit>)
    requires Possible(New(), es)
    ensures var b := ApplyAll(New(), es);
      b.changeIndex.Some? ==>
        && InputSum(b.inputs) == OutputSum(b.outputs) + GetFee(Base(b))
        && (!IsCoinbase(b) && b.fixedFee.None? && Rate(b.feePerKb) > 0 ==>
          Unspent(b) == GetFee(b) > 0 && HasFeeError(b, Unspent(b)) == NoError)
  {
    var b := ApplyAll(New(), es);
    RunKeeps(New(), es);
    RunKeepsChangeScript(New(), es);
    if b.changeIndex.Some? {
      var a :| b.changeScript.value == AddressScript(a);
      AddressScriptIsShort(a);
      ChangeBalances(b);
      if !IsCoinbase(b) && b.fixedFee.None? && Rate(b.feePerKb) > 0 { NoFeeError(b); }
    }
  }

  // ----- removeOutput -----

  // The index of an output among the user's outputs; none for the change itself or beyond the end.
  function UserIndex(b: Builder, i: nat): Option<nat>
  {
    if i >= |b.outputs| || b.changeIndex == Some(i) then None
    else if b.changeIndex.Some? && b.changeIndex.value < i then Some(i - 1)
    else Some(i)
  }

  function WantedWithout(b: Builder, i: nat): seq<Out>
  {
    if UserIndex(b, i).None? then User(b) else Without(User(b), UserIndex(b, i).value)
  }

  // The index of the change is not adjusted when an output before it goes.
  predicate RemovesAsAsked(b: Builder, i: nat)
  {
    || b.changeIndex.None?
    || i > b.changeIndex.value
    || (i == b.changeIndex.value && i + 1 == |b.outputs|)
    || (i < b.changeIndex.value && b.changeIndex.value + 1 < |b.outputs|
        && b.outputs[b.changeIndex.value + 1] == b.outputs[b.changeIndex.value])
  }

  lemma RemoveOutputIff(b: Builder, i: nat)
    requires Inv(b)
    ensures User(Removed(b, i)) == WantedWithout(b, i) <==> RemovesAsAsked(b, i)
  {
    var removed := b.(outputs := Without(b.outputs, i));
    UpdateKeeps(removed);
    if b.changeIndex.Some? {
      RemovedUser(b, i);
    } else {
      assert User(removed) == removed.outputs;
    }
  }

  lemma RemovedUser(b: Builder, i: nat)
    requires Inv(b) && b.changeIndex.Some?
    ensures Without(Without(b.outputs, i), b.changeIndex.value) == WantedWithout(b, i) <==> RemovesAsAsked(b, i)
  {
    var k, outs := b.changeIndex.value, b.outputs;
    if i < k {
      RemovedBefore(outs, i, k);
    } else if k < i < |outs| {
      RemovedBehind(outs, i, k);
    }
  }

  lemma RemovedBehind(outs: seq<Out>, i: nat, k: nat)
    requires k < i < |outs|
    ensures Without(Without(outs, i), k) == Without(Without(outs, k), i - 1)
  {
  }

  lemma RemovedBefore(outs: seq<Out>, i: nat, k: nat)
    requires i < k < |outs|
    ensures Without(Without(outs, i), k) == Without(Without(outs, k), i)
      <==> k + 1 < |outs| && outs[k + 1] == outs[k]
  {
    var left, right := Without(Without(outs, i), k), Without(Without(outs, k), i);
    if k + 1 < |outs| {
      assert left[k - 1] == outs[k] && right[k - 1] == outs[k + 1];
      assert outs[k + 1] == outs[k] ==> left == right;
    } else {
      assert |left| != |right|;
    }
  }

  // One input, one output, and the change behind it: removing the output leaves the old change as if it were asked for.
  lemma RemoveBeforeChangeFails(txId: bytes, script: bytes, change: bytes)
    requires |script| == |change| == 25
    ensures var b := Builder([In(txId, 0, 100000, PublicKeyHash)], [Out(script, 1000), Out(change, 89000)],
                             Some(change), Some(1), None, None);
      && Inv(b) && User(b) == [Out(script, 1000)]
      && User(Removed(b, 0)) == [Out(change, 89000)] && WantedWithout(b, 0) == []
  {
    var input, output := In(txId, 0, 100000, PublicKeyHash), Out(script, 1000);
    var b := Builder([input], [output, Out(change, 89000)], Some(change), Some(1), None, None);
    assert User(b) == [output];
    OneElement(InValue, input);
    OneElement(InSize, input);
    OneElement(OutValue, output);
    OneElement(OutSize, output);
    assert Unspent(Base(b)) == 99000 && EstimatedSize(Base(b)) == 26 + 107 + 34;
    assert Remainder(b) == 89000;
    var removed := b.(outputs := Without(b.outputs, 0));
    UpdateKeeps(removed);
    assert Without(b.outputs, 0) == [Out(change, 89000)];
  }

  lemma OneElement<T>(f: T -> int, x: T)
    ensures SumBy(f, [x]) == f(x)
  {
    assert [x][..0] == [];
  }
}
