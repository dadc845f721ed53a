// The builder as the class that changes its inputs, outputs and cached sums in place (transaction/transaction.js).

module TransactionBuilder {
  import opened Bytes
  import opened Builder

  class Output {
    const value: Out

    constructor (o: Out)
      ensures value == o
    {
      value := o;
    }
  }

  class Input {
    const value: In

    constructor (i: In)
      ensures value == i
    {
      value := i;
    }
  }

  function OutValues(outs: seq<Output>): (r: seq<Out>)
    ensures |r| == |outs|
  {
    seq(|outs|, i requires 0 <= i < |outs| => outs[i].value)
  }

  function InValues(ins: seq<Input>): (r: seq<In>)
    ensures |r| == |ins|
  {
    seq(|ins|, i requires 0 <= i < |ins| => ins[i].value)
  }

  predicate Distinct<T(==)>(s: seq<T>) { forall i, j :: 0 <= i < j < |s| ==> s[i] != s[j] }

  // The sequence without an element, by reference.
  method WithoutElement<T(==)>(s: seq<T>, ghost index: nat, x: T) returns (r: seq<T>)
    requires Distinct(s) && index < |s| && s[index] == x
    ensures r == Without(s, index) && Distinct(r)
  {
    r := [];
    for k := 0 to |s|
      invariant r == if k <= index then s[..k] else s[..index] + s[index + 1..k]
    {
      if s[k] != x { r := r + [s[k]]; }
    }
  }

  // Distinct elements, all of them among as many others: the others are the same in some order.
  lemma {:induction false} CoveredIsPermutation<T>(xs: seq<T>, ys: seq<T>)
    requires Distinct(xs) && |xs| == |ys| && forall x :: x in xs ==> x in ys
    ensures multiset(xs) == multiset(ys)
    decreases |xs|
  {
    if xs == [] {
      assert ys == [];
    } else {
      var n := |xs| - 1;
      assert xs[n] in xs;
      var i :| 0 <= i < |ys| && ys[i] == xs[n];
      forall x | x in xs[..n] ensures x in Without(ys, i) {
        StaysIn(xs, ys, i, x);
      }
      CoveredIsPermutation(xs[..n], Without(ys, i));
      PutBack(xs, ys, i);
    }
  }

  lemma PutBack<T>(xs: seq<T>, ys: seq<T>, i: nat)
    requires xs != [] && i < |ys| && ys[i] == xs[|xs| - 1]
    requires multiset(xs[..|xs| - 1]) == multiset(Without(ys, i))
    ensures multiset(xs) == multiset(ys)
  {
    assert xs == xs[..|xs| - 1] + [ys[i]];
    assert ys == ys[..i] + [ys[i]] + ys[i + 1..];
  }

  lemma StaysIn<T>(xs: seq<T>, ys: seq<T>, i: nat, x: T)
    requires xs != [] && Distinct(xs) && x in xs[..|xs| - 1] && x in ys && i < |ys| && ys[i] == xs[|xs| - 1]
    ensures x in Without(ys, i)
  {
    var k :| 0 <= k < |ys| && ys[k] == x;
    assert k != i;
    assert Without(ys, i)[if k < i then k else k - 1] == x;
  }

  function Mapped<S, T>(f: S -> T, s: seq<S>): (r: seq<T>)
    ensures |r| == |s|
  {
    seq(|s|, i requires 0 <= i < |s| => f(s[i]))
  }

  lemma MappedWithout<S, T>(f: S -> T, s: seq<S>, i: nat)
    requires i < |s|
    ensures Mapped(f, Without(s, i)) == Without(Mapped(f, s), i)
  {
  }

  lemma {:induction false} SameBagMapped<S, T>(f: S -> T, xs: seq<S>, ys: seq<S>)
    requires multiset(xs) == multiset(ys)
    ensures multiset(Mapped(f, xs)) == multiset(Mapped(f, ys))
    decreases |xs|
  {
    if xs == [] {
      SameBagEmpty(xs, ys);
    } else {
      var i := LastOf(xs, ys);
      SameBagMapped(f, xs[..|xs| - 1], Without(ys, i));
      MappedBack(f, xs, ys, i);
    }
  }

  lemma MappedBack<S, T>(f: S -> T, xs: seq<S>, ys: seq<S>, i: nat)
    requires xs != [] && i < |ys| && ys[i] == xs[|xs| - 1]
    requires multiset(Mapped(f, xs[..|xs| - 1])) == multiset(Mapped(f, Without(ys, i)))
    ensures multiset(Mapped(f, xs)) == multiset(Mapped(f, ys))
  {
    MappedWithout(f, ys, i);
    assert Mapped(f, xs)[..|xs| - 1] == Mapped(f, xs[..|xs| - 1]);
    PutBack(Mapped(f, xs), Mapped(f, ys), i);
  }

  lemma SameBagSameValues(xs: seq<Output>, ys: seq<Output>)
    requires multiset(xs) == multiset(ys)
    ensures multiset(OutValues(xs)) == multiset(OutValues(ys))
  {
    SameBagMapped((o: Output) => o.value, xs, ys);
    assert OutValues(xs) == Mapped((o: Output) => o.value, xs) && OutValues(ys) == Mapped((o: Output) => o.value, ys);
  }

  lemma SameBagSameInputs(xs: seq<Input>, ys: seq<Input>)
    requires multiset(xs) == multiset(ys)
    ensures multiset(InValues(xs)) == multiset(InValues(ys))
  {
    SameBagMapped((i: Input) => i.value, xs, ys);
    assert InValues(xs) == Mapped((i: Input) => i.value, xs) && InValues(ys) == Mapped((i: Input) => i.value, ys);
  }

  // ----- the class -----

  class Transaction {
    var inputs: seq<Input>
    var outputs: seq<Output>
    var inputAmount: Option<int>     // cached sums, none where an edit has dropped them
    var outputAmount: Option<int>
    var changeScript: Option<bytes>
    var changeIndex: Option<nat>
    var fixedFee: Option<int>
    var feePerKb: Option<int>

    ghost function View(): Builder reads this
    {
      Builder(InValues(inputs), OutValues(outputs), changeScript, changeIndex, fixedFee, feePerKb)
    }

    ghost predicate CachesExact() reads this
    {
      && (inputAmount.Some? ==> inputAmount.value == InputSum(View().inputs))
      && (outputAmount.Some? ==> outputAmount.value == OutputSum(View().outputs))
    }

    // No object stands twice among the inputs or the outputs, and cached sums are exact.
    ghost predicate Sound() reads this { Distinct(inputs) && Distinct(outputs) && CachesExact() }

    ghost predicate Valid() reads this { Sound() && Inv(View()) }

    constructor ()
      ensures Valid() && View() == New()
    {
      inputs, outputs, inputAmount, outputAmount := [], [], None, None;
      changeScript, changeIndex, fixedFee, feePerKb := None, None, None, None;
    }

    method GetOutputAmount() returns (sum: int)
      requires CachesExact()
      modifies this`outputAmount
      ensures CachesExact() && sum == OutputSum(View().outputs)
    {
      if outputAmount.None? {
        var total := 0;
        for i := 0 to |outputs|
          invariant total == OutputSum(View().outputs[..i])
        {
          assert View().outputs[..i + 1][..i] == View().outputs[..i];
          total := total + outputs[i].value.satoshis;
        }
        assert View().outputs[..|outputs|] == View().outputs;
        outputAmount := Some(total);
      }
      return outputAmount.value;
    }

    method GetInputAmount() returns (sum: int)
      requires CachesExact()
      modifies this`inputAmount
      ensures CachesExact() && sum == InputSum(View().inputs)
    {
      if inputAmount.None? {
        var total := 0;
        for i := 0 to |inputs|
          invariant total == InputSum(View().inputs[..i])
        {
          assert View().inputs[..i + 1][..i] == View().inputs[..i];
          total := total + inputs[i].value.satoshis;
        }
        assert View().inputs[..|inputs|] == View().inputs;
        inputAmount := Some(total);
      }
      return inputAmount.value;
    }

    method GetUnspentValue() returns (n: int)
      requires CachesExact()
      modifies this`inputAmount, this`outputAmount
      ensures CachesExact() && n == Unspent(View())
    {
      var ins := GetInputAmount();
      var outs := GetOutputAmount();
      return ins - outs;
    }

    method EstimateSize() returns (size: int)
      ensures size == EstimatedSize(View())
    {
      size := MAXIMUM_EXTRA_SIZE;
      for i := 0 to |inputs|
        invariant size == MAXIMUM_EXTRA_SIZE + SumBy(InSize, View().inputs[..i])
      {
        assert View().inputs[..i + 1][..i] == View().inputs[..i];
        size := size + InSize(inputs[i].value);
      }
      assert View().inputs[..|inputs|] == View().inputs;
      ghost var before := size;
      for i := 0 to |outputs|
        invariant size == before + SumBy(OutSize, View().outputs[..i])
      {
        assert View().outputs[..i + 1][..i] == View().outputs[..i];
        size := size + |outputs[i].value.script| + 9;
      }
      assert View().outputs[..|outputs|] == View().outputs;
    }

    method EstimateFee() returns (fee: int)
      requires CachesExact()
      modifies this`inputAmount, this`outputAmount
      ensures CachesExact() && fee == EstimatedFee(View())
    {
      var size := EstimateSize();
      var available := GetUnspentValue();
      var rate := if feePerKb.None? || feePerKb.value == 0 then FEE_PER_KB else feePerKb.value;
      fee := (size + 999) / 1000 * rate;
      if available > fee {
        size := size + CHANGE_OUTPUT_MAX_SIZE;
      }
      fee := (size + 999) / 1000 * rate;
    }

    method GetFeeAmount() returns (fee: int)
      requires CachesExact()
      modifies this`inputAmount, this`outputAmount
      ensures CachesExact() && fee == GetFee(View())
    {
      if |inputs| == 1 && IsNull(inputs[0].value) { return 0; }
      if fixedFee.Some? { return fixedFee.value; }
      if changeScript.None? {
        fee := GetUnspentValue();
      } else {
        fee := EstimateFee();
      }
    }

    // Takes the object at the index out by reference; nothing where there is none.
    method DropOutput(index: nat)
      requires Sound()
      modifies this`outputs, this`outputAmount
      ensures Sound() && outputAmount.None?
      ensures View() == old(View()).(outputs := Without(old(View()).outputs, index))
      ensures forall o :: o in outputs ==> o in old(outputs)
    {
      if index < |outputs| {
        outputs := WithoutElement(outputs, index, outputs[index]);
      }
      outputAmount := None;
    }

    method UpdateChangeOutput()
      requires Sound() && (changeScript.None? ==> changeIndex.None?)
      modifies this`outputs, this`outputAmount, this`inputAmount, this`changeIndex
      ensures Valid() && View() == UpdateChange(old(View()))
    {
      UpdateKeeps(View());
      if changeScript.None? { return; }
      if changeIndex.Some? {
        DropOutput(changeIndex.value);
      }
      var available := GetUnspentValue();
      var fee := GetFeeAmount();
      AddChange(available - fee);
    }

    method AddChange(changeAmount: int)
      requires Sound() && changeScript.Some?
      modifies this`outputs, this`outputAmount, this`changeIndex
      ensures Sound() && View() == if changeAmount > 0
        then old(View()).(outputs := old(View()).outputs + [Out(changeScript.value, changeAmount)], changeIndex := Some(|old(outputs)|))
        else old(View()).(changeIndex := None)
    {
      if changeAmount > 0 {
        changeIndex := Some(|outputs|);
        PushOutput(Out(changeScript.value, changeAmount));
      } else {
        changeIndex := None;
      }
    }

    method PushOutput(o: Out)
      requires Sound()
      modifies this`outputs, this`outputAmount
      ensures Sound() && View() == old(View()).(outputs := old(View()).outputs + [o])
    {
      var output := new Output(o);
      outputs := outputs + [output];
      outputAmount := None;
    }

    // ----- edits -----

    method IsSpent(utxo: In) returns (spent: bool)
      ensures spent == Spends(InValues(inputs), utxo)
    {
      for k := 0 to |inputs|
        invariant forall i :: 0 <= i < k ==> !(inputs[i].value.txId == utxo.txId && inputs[i].value.outputIndex == utxo.outputIndex)
      {
        if inputs[k].value.txId == utxo.txId && inputs[k].value.outputIndex == utxo.outputIndex {
          assert InValues(inputs)[k] == inputs[k].value;
          return true;
        }
      }
      return false;
    }

    // An outpoint already spent is passed over.
    method From(utxo: In)
      requires Valid()
      modifies this
      ensures Valid() && View() == Apply(old(View()), Edit.From(utxo))
    {
      var spent := IsSpent(utxo);
      if spent { return; }
      var input := new Input(utxo);
      inputs := inputs + [input];
      inputAmount := None;
      assert View().inputs == old(View()).inputs + [utxo];
      UpdateChangeOutput();
    }

    method Add(o: Out)
      requires Valid()
      modifies this
      ensures Valid() && View() == Apply(old(View()), AddOutput(o))
    {
      PushOutput(o);
      UpdateChangeOutput();
    }

    // Only a natural number can be sent.
    method To(address: Address, amount: int) returns (ok: bool)
      requires Valid()
      modifies this
      ensures Valid() && ok == (amount >= 0)
      ensures View() == if ok then Apply(old(View()), AddOutput(Out(AddressScript(address), amount))) else old(View())
    {
      if amount < 0 { return false; }
      Add(Out(AddressScript(address), amount));
      return true;
    }

    method AddData(script: bytes)
      requires Valid()
      modifies this
      ensures Valid() && View() == Apply(old(View()), AddOutput(Out(script, 0)))
    {
      Add(Out(script, 0));
    }

    method SetChange(address: Address)
      requires Valid()
      modifies this
      ensures Valid() && View() == Apply(old(View()), Change(address))
    {
      changeScript := Some(AddressScript(address));
      UpdateChangeOutput();
    }

    method SetFee(amount: int)
      requires Valid()
      modifies this
      ensures Valid() && View() == Apply(old(View()), Fee(amount))
    {
      fixedFee := Some(amount);
      UpdateChangeOutput();
    }

    method SetFeePerKb(rate: int)
      requires Valid()
      modifies this
      ensures Valid() && View() == Apply(old(View()), FeePerKb(rate))
    {
      feePerKb := Some(rate);
      UpdateChangeOutput();
    }

    method Clear()
      requires Valid()
      modifies this
      ensures Valid() && View() == Apply(old(View()), ClearOutputs)
    {
      outputs, outputAmount, changeIndex := [], None, None;
      UpdateChangeOutput();
    }

    // The index of the change stays what it was.
    method RemoveOutputAt(index: nat)
      requires Valid()
      modifies this
      ensures Valid() && View() == Apply(old(View()), RemoveOutput(index))
    {
      DropOutput(index);
      UpdateChangeOutput();
    }

    // An index outside the inputs is refused.
    method RemoveInputAt(index: nat) returns (ok: bool)
      requires Valid()
      modifies this
      ensures Valid() && ok == (index < |old(inputs)|)
      ensures View() == if ok then Apply(old(View()), RemoveInput(index)) else old(View())
    {
      if index >= |inputs| { return false; }
      ghost var before := inputs;
      inputs := WithoutElement(inputs, index, inputs[index]);
      inputAmount := None;
      assert InValues(inputs) == Without(InValues(before), index);
      UpdateChangeOutput();
      return true;
    }

    method IsOrder(newOutputs: seq<Output>) returns (ok: bool)
      requires Distinct(outputs)
      ensures ok <==> multiset(newOutputs) == multiset(outputs)
    {
      if |outputs| != |newOutputs| {
        assert |multiset(outputs)| != |multiset(newOutputs)|;
        return false;
      }
      for k := 0 to |outputs|
        invariant forall i :: 0 <= i < k ==> outputs[i] in newOutputs
      {
        if outputs[k] !in newOutputs {
          assert outputs[k] in multiset(outputs) && outputs[k] !in multiset(newOutputs);
          return false;
        }
      }
      CoveredIsPermutation(outputs, newOutputs);
      return true;
    }

    // Takes the result of a sorting function if its length is right and no output is missing. The change is looked up by
    // value, so of two equal outputs the first counts as the change.
    method NewOutputOrder(newOutputs: seq<Output>) returns (ok: bool)
      requires Valid()
      modifies this`outputs, this`changeIndex
      ensures Valid() && (ok <==> multiset(newOutputs) == multiset(old(outputs)))
      ensures ok ==> multiset(OutValues(newOutputs)) == multiset(old(View()).outputs)
      ensures View() == if ok then Reordered(old(View()), OutValues(newOutputs)) else old(View())
    {
      ok := IsOrder(newOutputs);
      if ok {
        OrderKeeps(outputs, newOutputs, View());
        TakeOrder(newOutputs);
      }
    }

    method TakeOrder(newOutputs: seq<Output>)
      requires changeIndex.Some? ==> changeIndex.value < |outputs| && outputs[changeIndex.value].value in OutValues(newOutputs)
      requires ChangeInside(View()) && multiset(OutValues(newOutputs)) == multiset(OutValues(outputs))
      modifies this`outputs, this`changeIndex
      ensures outputs == newOutputs && View() == Reordered(old(View()), OutValues(newOutputs))
    {
      if changeIndex.Some? {
        var i := FindIndex(newOutputs, outputs[changeIndex.value].value);
        changeIndex := Some(i);
      }
      outputs := newOutputs;
    }

    // Takes the result of a sorting function as it is, and keeps the cached sum.
    method SortInputsTo(newInputs: seq<Input>)
      requires Valid()
      modifies this`inputs
      ensures View() == old(View()).(inputs := InValues(newInputs))
      ensures CachesExact() <==> inputAmount.None? || InputSum(InValues(newInputs)) == InputSum(old(View()).inputs)
      ensures multiset(newInputs) == multiset(old(inputs)) ==> Valid()
    {
      if multiset(newInputs) == multiset(inputs) {
        SameBagDistinct(inputs, newInputs);
        SameBagSameInputs(newInputs, inputs);
        SortedInputsKeep(View(), InValues(newInputs));
        SumSameBag(InValue, InValues(newInputs), View().inputs);
      }
      inputs := newInputs;
    }
  }

  lemma OrderKeeps(outs: seq<Output>, order: seq<Output>, b: Builder)
    requires multiset(order) == multiset(outs) && Distinct(outs) && b.outputs == OutValues(outs) && Inv(b)
    ensures Distinct(order) && multiset(OutValues(order)) == multiset(b.outputs)
    ensures Inv(Reordered(b, OutValues(order))) && OutputSum(OutValues(order)) == OutputSum(b.outputs)
    ensures b.changeIndex.Some? ==> outs[b.changeIndex.value].value in OutValues(order)
  {
    SameBagDistinct(outs, order);
    SameBagSameValues(order, outs);
    SumSameBag(OutValue, OutValues(order), b.outputs);
    SortedOutputsKeep(b, OutValues(order), Reordered(b, OutValues(order)).changeIndex);
    if b.changeIndex.Some? {
      assert b.outputs[b.changeIndex.value] in multiset(b.outputs);
    }
  }

  method FindIndex(outs: seq<Output>, o: Out) returns (i: nat)
    requires o in OutValues(outs)
    ensures i == FirstIndex(OutValues(outs), o)
  {
    i := 0;
    ghost var values := OutValues(outs);
    while outs[i].value != o
      invariant i < |outs| && o in values[i..] && FirstIndex(values, o) == i + FirstIndex(values[i..], o)
      decreases |outs| - i
    {
      assert values[i..][1..] == values[i + 1..];
      i := i + 1;
    }
  }

  lemma {:induction false} SameBagDistinct<T>(xs: seq<T>, ys: seq<T>)
    requires Distinct(xs) && multiset(xs) == multiset(ys)
    ensures Distinct(ys)
  {
    forall i, j | 0 <= i < j < |ys| ensures ys[i] != ys[j] {
      if ys[i] == ys[j] {
        TwiceInBag(ys, i, j);
        OnceInBag(xs, ys[i]);
      }
    }
  }

  lemma TwiceInBag<T>(ys: seq<T>, i: nat, j: nat)
    requires i < j < |ys| && ys[i] == ys[j]
    ensures multiset(ys)[ys[i]] >= 2
  {
    assert ys == ys[..j] + [ys[j]] + ys[j + 1..];
    assert ys[i] in ys[..j];
  }

  lemma {:induction false} OnceInBag<T>(xs: seq<T>, x: T)
    requires Distinct(xs)
    ensures multiset(xs)[x] <= 1
  {
    if xs != [] {
      var n := |xs| - 1;
      assert xs == xs[..n] + [xs[n]];
      OnceInBag(xs[..n], x);
    }
  }
}
