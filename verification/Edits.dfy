// What runs of edits make of the inputs and the settings of a transaction (transaction/transaction.js).

module Edits {
  import opened Bytes
  import opened Builder
  import opened TransactionBuilder

  datatype Point = Point(txId: bytes, outputIndex: nat)

  function Outpoint(i: In): Point { Point(i.txId, i.outputIndex) }

  function Outpoints(ins: seq<In>): (r: seq<Point>)
    ensures |r| == |ins| && forall k :: 0 <= k < |ins| ==> r[k] == Outpoint(ins[k])
  {
    seq(|ins|, k requires 0 <= k < |ins| => Outpoint(ins[k]))
  }

  lemma SpendsIff(ins: seq<In>, utxo: In)
    ensures Spends(ins, utxo) <==> Outpoint(utxo) in Outpoints(ins)
  {
    var r := Outpoints(ins);
    if Spends(ins, utxo) {
      var k :| 0 <= k < |ins| && ins[k].txId == utxo.txId && ins[k].outputIndex == utxo.outputIndex;
      assert r[k] == Outpoint(utxo);
    }
    if Outpoint(utxo) in r {
      var k :| 0 <= k < |r| && r[k] == Outpoint(utxo);
      assert ins[k].txId == utxo.txId && ins[k].outputIndex == utxo.outputIndex;
    }
  }

  // The outpoints an edit leaves spent, sorts aside.
  function WantedOutpoints(spent: seq<Point>, e: Edit): seq<Point>
  {
    match e
    case From(utxo) => if Outpoint(utxo) in spent then spent else spent + [Outpoint(utxo)]
    case RemoveInput(i) => Without(spent, i)
    case _ => spent
  }

  function InputsAfter(ins: seq<In>, e: Edit): seq<In>
  {
    match e
    case From(utxo) => if Spends(ins, utxo) then ins else ins + [utxo]
    case RemoveInput(i) => Without(ins, i)
    case SortInputs(order) => order
    case _ => ins
  }

  lemma EditInputs(b: Builder, e: Edit)
    requires ChangeInside(b) && Enabled(b, e)
    ensures Apply(b, e).inputs == InputsAfter(b.inputs, e)
  {
  }

  lemma InputsSpend(ins: seq<In>, e: Edit)
    requires Distinct(Outpoints(ins)) && (e.SortInputs? ==> multiset(e.inputOrder) == multiset(ins))
    ensures Distinct(Outpoints(InputsAfter(ins, e)))
    ensures multiset(Outpoints(InputsAfter(ins, e))) == multiset(WantedOutpoints(Outpoints(ins), e))
    ensures !e.SortInputs? ==> Outpoints(InputsAfter(ins, e)) == WantedOutpoints(Outpoints(ins), e)
  {
    match e
    case From(utxo) => AddedSpends(ins, utxo);
    case RemoveInput(i) => RemovedSpends(ins, i);
    case SortInputs(order) =>
      SameBagSameOutpoints(order, ins);
      SameBagDistinct(Outpoints(ins), Outpoints(order));
    case _ =>
  }

  lemma AddedSpends(ins: seq<In>, utxo: In)
    requires Distinct(Outpoints(ins))
    ensures Spends(ins, utxo) <==> Outpoint(utxo) in Outpoints(ins)
    ensures Outpoints(ins + [utxo]) == Outpoints(ins) + [Outpoint(utxo)]
    ensures !Spends(ins, utxo) ==> Distinct(Outpoints(ins) + [Outpoint(utxo)])
  {
    SpendsIff(ins, utxo);
  }

  lemma RemovedSpends(ins: seq<In>, i: nat)
    requires Distinct(Outpoints(ins))
    ensures Outpoints(Without(ins, i)) == Without(Outpoints(ins), i) && Distinct(Without(Outpoints(ins), i))
  {
  }

  // Every edit spends what it is asked to, up to the order, and nothing twice.
  lemma EditSpends(b: Builder, e: Edit)
    requires ChangeInside(b) && Enabled(b, e) && Distinct(Outpoints(b.inputs))
    ensures Distinct(Outpoints(Apply(b, e).inputs))
    ensures multiset(Outpoints(Apply(b, e).inputs)) == multiset(WantedOutpoints(Outpoints(b.inputs), e))
    ensures !e.SortInputs? ==> Outpoints(Apply(b, e).inputs) == WantedOutpoints(Outpoints(b.inputs), e)
  {
    EditInputs(b, e);
    InputsSpend(b.inputs, e);
  }

  lemma SameBagSameOutpoints(xs: seq<In>, ys: seq<In>)
    requires multiset(xs) == multiset(ys)
    ensures multiset(Outpoints(xs)) == multiset(Outpoints(ys))
  {
    SameBagMapped((i: In) => Outpoint(i), xs, ys);
    assert Outpoints(xs) == Mapped((i: In) => Outpoint(i), xs) && Outpoints(ys) == Mapped((i: In) => Outpoint(i), ys);
  }

  // Over every run from a new transaction no outpoint is spent twice.
  lemma {:induction false} NothingIsSpentTwice(b: Builder, es: seq<Edit>)
    requires Possible(b, es) && Distinct(Outpoints(b.inputs))
    ensures Distinct(Outpoints(ApplyAll(b, es).inputs))
    decreases |es|
  {
    if es != [] {
      EditSpends(b, es[0]);
      NothingIsSpentTwice(Apply(b, es[0]), es[1..]);
    }
  }

  // The last value set by an edit of a kind.
  function LastFee(es: seq<Edit>): Option<int>
  {
    if es == [] then None else if es[|es| - 1].Fee? then Some(es[|es| - 1].amount) else LastFee(es[..|es| - 1])
  }

  function LastRate(es: seq<Edit>): Option<int>
  {
    if es == [] then None else if es[|es| - 1].FeePerKb? then Some(es[|es| - 1].rate) else LastRate(es[..|es| - 1])
  }

  function LastChange(es: seq<Edit>): Option<bytes>
  {
    if es == [] then None
    else if es[|es| - 1].Change? then Some(AddressScript(es[|es| - 1].address)) else LastChange(es[..|es| - 1])
  }

  lemma {:induction false} PossibleFront(b: Builder, es: seq<Edit>)
    requires es != [] && Possible(b, es)
    ensures var init, last := es[..|es| - 1], es[|es| - 1];
      && Possible(b, init) && ChangeInside(ApplyAll(b, init)) && Enabled(ApplyAll(b, init), last)
      && ApplyAll(b, es) == Apply(ApplyAll(b, init), last)
    decreases |es|
  {
    var init := es[..|es| - 1];
    if |es| > 1 {
      PossibleFront(Apply(b, es[0]), es[1..]);
      assert es[1..][..|es| - 2] == init[1..];
    } else {
      assert es == [es[0]] && init == [];
      assert ApplyAll(b, es) == ApplyAll(Apply(b, es[0]), es[1..]);
    }
  }

  lemma EditSettings(b: Builder, e: Edit)
    requires ChangeInside(b) && Enabled(b, e)
    ensures Apply(b, e).fixedFee == if e.Fee? then Some(e.amount) else b.fixedFee
    ensures Apply(b, e).feePerKb == if e.FeePerKb? then Some(e.rate) else b.feePerKb
    ensures Apply(b, e).changeScript == if e.Change? then Some(AddressScript(e.address)) else b.changeScript
  {
  }

  // After every run from a new transaction each setting is the one made last.
  lemma {:induction false} SettingsAreTheLast(es: seq<Edit>)
    requires Possible(New(), es)
    ensures var b := ApplyAll(New(), es);
      b.fixedFee == LastFee(es) && b.feePerKb == LastRate(es) && b.changeScript == LastChange(es)
    decreases |es|
  {
    if es != [] {
      PossibleFront(New(), es);
      SettingsAreTheLast(es[..|es| - 1]);
      EditSettings(ApplyAll(New(), es[..|es| - 1]), es[|es| - 1]);
    }
  }
}
