// The balance index (services/AddressBalanceService.js): a table of the positive balances of all addresses, kept up
// block by block while the chain grows.

module BalanceIndex {
  import opened Bytes
  import Tips = TipProtocol

  type Address = string

  datatype Input = Input(address: Option<Address>, value: nat)
  datatype Output = Output(addresses: seq<Address>, value: nat)
  datatype Tx = Tx(vin: seq<Input>, vout: seq<Output>)
  type Block = seq<Tx>

  // ----- balances -----

  function Spent(vin: seq<Input>, a: Address): nat
  {
    if vin == [] then 0 else (if vin[0].address == Some(a) then vin[0].value else 0) + Spent(vin[1..], a)
  }

  function Received(vout: seq<Output>, a: Address): nat
  {
    if vout == [] then 0 else (if a in vout[0].addresses then vout[0].value else 0) + Received(vout[1..], a)
  }

  // What the transactions add to the balance of an address.
  function Delta(block: Block, a: Address): int
  {
    if block == [] then 0 else Received(block[0].vout, a) - Spent(block[0].vin, a) + Delta(block[1..], a)
  }

  // The balance after the whole chain.
  function Balance(chain: seq<Block>, a: Address): int
  {
    if chain == [] then 0 else Balance(chain[..|chain| - 1], a) + Delta(chain[|chain| - 1], a)
  }

  // ----- the addresses a block touches -----

  function Noted(list: seq<Address>, a: Address): seq<Address> { if a in list then list else list + [a] }

  function NotedAll(list: seq<Address>, addresses: seq<Address>): seq<Address>
    decreases |addresses|
  {
    if addresses == [] then list else NotedAll(Noted(list, addresses[0]), addresses[1..])
  }

  function NotedInputs(list: seq<Address>, vin: seq<Input>): seq<Address>
    decreases |vin|
  {
    if vin == [] then list
    else NotedInputs(if vin[0].address.Some? then Noted(list, vin[0].address.value) else list, vin[1..])
  }

  function NotedOutputs(list: seq<Address>, vout: seq<Output>): seq<Address>
    decreases |vout|
  {
    if vout == [] then list else NotedOutputs(NotedAll(list, vout[0].addresses), vout[1..])
  }

  function NotedBlock(list: seq<Address>, block: Block): seq<Address>
    decreases |block|
  {
    if block == [] then list else NotedBlock(NotedOutputs(NotedInputs(list, block[0].vin), block[0].vout), block[1..])
  }

  // Each address once, in the order in which the block mentions them.
  function Touched(block: Block): seq<Address> { NotedBlock([], block) }

  predicate Distinct(list: seq<Address>) { forall i, j :: 0 <= i < j < |list| ==> list[i] != list[j] }

  lemma {:induction false} AllNoted(list: seq<Address>, addresses: seq<Address>, a: Address)
    ensures a in NotedAll(list, addresses) <==> a in list || a in addresses
    ensures Distinct(list) ==> Distinct(NotedAll(list, addresses))
    decreases |addresses|
  {
    if addresses != [] { AllNoted(Noted(list, addresses[0]), addresses[1..], a); }
  }

  lemma {:induction false} InputsNoted(list: seq<Address>, vin: seq<Input>, a: Address)
    ensures a in list ==> a in NotedInputs(list, vin)
    ensures a !in NotedInputs(list, vin) ==> Spent(vin, a) == 0
    ensures Distinct(list) ==> Distinct(NotedInputs(list, vin))
    decreases |vin|
  {
    if vin != [] {
      InputsNoted(if vin[0].address.Some? then Noted(list, vin[0].address.value) else list, vin[1..], a);
    }
  }

  lemma {:induction false} OutputsNoted(list: seq<Address>, vout: seq<Output>, a: Address)
    ensures a in list ==> a in NotedOutputs(list, vout)
    ensures a !in NotedOutputs(list, vout) ==> Received(vout, a) == 0
    ensures Distinct(list) ==> Distinct(NotedOutputs(list, vout))
    decreases |vout|
  {
    if vout != [] {
      AllNoted(list, vout[0].addresses, a);
      OutputsNoted(NotedAll(list, vout[0].addresses), vout[1..], a);
    }
  }

  lemma {:induction false} BlockNoted(list: seq<Address>, block: Block, a: Address)
    ensures a in list ==> a in NotedBlock(list, block)
    ensures a !in NotedBlock(list, block) ==> Delta(block, a) == 0
    ensures Distinct(list) ==> Distinct(NotedBlock(list, block))
    decreases |block|
  {
    if block != [] {
      var ins := NotedInputs(list, block[0].vin);
      InputsNoted(list, block[0].vin, a);
      OutputsNoted(ins, block[0].vout, a);
      BlockNoted(NotedOutputs(ins, block[0].vout), block[1..], a);
    }
  }

  // A block changes the balances of the addresses it touches and of no others.
  lemma UntouchedKeepsBalance(chain: seq<Block>, block: Block, a: Address)
    requires a !in Touched(block)
    ensures Balance(chain + [block], a) == Balance(chain, a)
  {
    BlockNoted([], block, a);
    assert (chain + [block])[..|chain|] == chain;
  }

  // ----- the service -----

  // What the run under way waits for: the next block, the balance of the first address still to do, or the write of
  // a balance it was told.
  datatype Stage =
    | Next
    | Asking(todo: seq<Address>, done: set<Address>)
    | Writing(todo: seq<Address>, done: set<Address>, balance: int)

  // The last two fields record how many blocks the balance told last took into account, and the one written last for
  // each address.
  datatype State = State(tip: Tips.State, stage: Stage, chain: seq<Block>, table: map<Address, int>,
                         at: nat, answered: map<Address, nat>)

  datatype Event =
    | Grow(block: Block)        // the chain gets a block
    | Tip(height: nat)
    | Restart(height: nat)      // the process stops anywhere and starts again
    | Fetched                   // the block and its transactions arrive
    | Told(at: nat)             // the node tells a balance; its cache may hold one from before the last blocks
    | Written                   // the table takes it
    | WrittenFailed             // the table takes it, but the caller is told otherwise
    | Recorded                  // the height of the block is stored
    | RecordedFailed            // the same, told otherwise
    | Failed                    // any call fails
    | Cached                    // the caches are rebuilt and the run ends

  // The table keeps positive balances only.
  function Stored(table: map<Address, int>, a: Address, balance: int): map<Address, int>
  {
    if balance > 0 then table[a := balance] else table - {a}
  }

  predicate Current(s: State) { |s.tip.runs| == 1 && s.tip.runs[0].blocks != [] }

  function CurrentBlock(s: State): nat
    requires Current(s)
  {
    s.tip.runs[0].blocks[0]
  }

  predicate Enabled(s: State, e: Event)
  {
    match e
    case Grow(_) => true
    case Tip(_) => true
    case Restart(_) => true
    case Fetched => Current(s) && s.stage == Next && CurrentBlock(s) < |s.chain|
    case Told(at) => Current(s) && s.stage.Asking? && s.stage.todo != [] && at <= |s.chain|
    case Written => Current(s) && s.stage.Writing? && s.stage.todo != []
    case WrittenFailed => Current(s) && s.stage.Writing? && s.stage.todo != []
    case Recorded => Current(s) && s.stage.Asking? && s.stage.todo == []
    case RecordedFailed => Current(s) && s.stage.Asking? && s.stage.todo == []
    case Failed => |s.tip.runs| == 1
    case Cached => |s.tip.runs| == 1 && s.tip.runs[0].blocks == [] && s.stage == Next
  }

  // The step of the tip protocol an event is, if it is one.
  function TipEvent(e: Event): Option<Tips.Event>
  {
    match e
    case Tip(h) => Some(Tips.Tip(h))
    case Restart(h) => Some(Tips.Restart(h))
    case Recorded => Some(Tips.BlockDone(0))
    case RecordedFailed => Some(Tips.Recorded(0))
    case WrittenFailed => Some(Tips.Failed(0))
    case Failed => Some(Tips.Failed(0))
    case Cached => Some(Tips.Finished(0))
    case _ => None
  }

  // The table after the balance in hand is written.
  function WithEntry(s: State): State
    requires s.stage.Writing? && s.stage.todo != []
  {
    var a := s.stage.todo[0];
    s.(table := Stored(s.table, a, s.stage.balance), answered := s.answered[a := s.at])
  }

  function Apply(s: State, e: Event): State
    requires Enabled(s, e)
  {
    var tip := if TipEvent(e).Some? then Tips.Apply(s.tip, TipEvent(e).value) else s.tip;
    match e
    case Grow(block) => s.(chain := s.chain + [block])
    case Tip(_) => s.(tip := tip, stage := if s.tip.inProcess then s.stage else Next)
    case Fetched => s.(stage := Asking(Touched(s.chain[CurrentBlock(s)]), {}))
    case Told(at) => s.(stage := Writing(s.stage.todo, s.stage.done, Balance(s.chain[..at], s.stage.todo[0])), at := at)
    case Written => WithEntry(s).(stage := Asking(s.stage.todo[1..], s.stage.done + {s.stage.todo[0]}))
    case WrittenFailed => WithEntry(s).(tip := tip, stage := Next)
    case _ => s.(tip := tip, stage := Next)
  }

  // ----- what every run keeps -----

  // The table holds something else than this balance.
  predicate EntryDiffers(table: map<Address, int>, a: Address, balance: int)
  {
    if balance > 0 then a !in table || table[a] != balance else a in table
  }

  predicate Differs(s: State, a: Address) { EntryDiffers(s.table, a, Balance(s.chain, a)) }

  // How many blocks the entry of an address takes into account; none if it was never written.
  function AnsweredAt(answered: map<Address, nat>, a: Address): nat { if a in answered then answered[a] else 0 }

  // A block from lo up to below hi touches the address.
  predicate TouchedIn(chain: seq<Block>, lo: nat, hi: nat, a: Address)
  {
    exists j :: lo <= j < hi && j < |chain| && a in Touched(chain[j])
  }

  // The run under way works on a block of the chain, and has its addresses to do or done.
  ghost predicate StageFits(s: State)
  {
    s.stage != Next ==>
      && Current(s) && 1 <= CurrentBlock(s) < |s.chain|
      && (forall a :: a in Touched(s.chain[CurrentBlock(s)]) <==> a in s.stage.todo || a in s.stage.done)
      && (forall a :: a in s.stage.done ==> a in s.answered)
  }

  // A balance in hand is the one after the blocks it takes into account.
  ghost predicate BalanceFits(s: State)
  {
    s.stage.Writing? && s.stage.todo != [] ==>
      s.at <= |s.chain| && s.stage.balance == Balance(s.chain[..s.at], s.stage.todo[0])
  }

  // So is every entry of the table, and every missing one.
  ghost predicate EntryFits(chain: seq<Block>, table: map<Address, int>, a: Address, at: nat)
  {
    at <= |chain| && !EntryDiffers(table, a, Balance(chain[..at], a))
  }

  ghost predicate EntriesFit(chain: seq<Block>, table: map<Address, int>, answered: map<Address, nat>)
  {
    forall a :: EntryFits(chain, table, a, AnsweredAt(answered, a))
  }

  // Exactly what blocks 1 up to the stored height touch has been written, save for what the block in hand touches.
  ghost predicate AnsweredFit(chain: seq<Block>, persisted: nat, answered: map<Address, nat>)
  {
    && (forall a :: TouchedIn(chain, 1, persisted + 1, a) ==> a in answered)
    && (forall a :: a in answered ==> TouchedIn(chain, 1, |chain|, a))
  }

  ghost predicate Inv(s: State)
  {
    && Tips.Inv(s.tip) && s.tip.persisted < |s.chain|
    && StageFits(s) && BalanceFits(s)
    && EntriesFit(s.chain, s.table, s.answered) && AnsweredFit(s.chain, s.tip.persisted, s.answered)
  }

  lemma {:induction false} PrefixTouched(chain: seq<Block>, block: Block, lo: nat, hi: nat, a: Address)
    ensures TouchedIn(chain, lo, hi, a) ==> TouchedIn(chain + [block], lo, hi, a)
    ensures hi <= |chain| && TouchedIn(chain + [block], lo, hi, a) ==> TouchedIn(chain, lo, hi, a)
    ensures TouchedIn(chain, lo, |chain|, a) ==> TouchedIn(chain + [block], lo, |chain| + 1, a)
  {
    if TouchedIn(chain, lo, hi, a) {
      var j :| lo <= j < hi && j < |chain| && a in Touched(chain[j]);
      assert (chain + [block])[j] == chain[j];
    }
    if TouchedIn(chain, lo, |chain|, a) {
      var j :| lo <= j < |chain| && a in Touched(chain[j]);
      assert (chain + [block])[j] == chain[j];
    }
    if hi <= |chain| && TouchedIn(chain + [block], lo, hi, a) {
      var j :| lo <= j < hi && a in Touched((chain + [block])[j]);
      assert (chain + [block])[j] == chain[j];
    }
  }

  lemma GrowKeeps(s: State, block: Block)
    requires Inv(s)
    ensures Inv(Apply(s, Grow(block)))
  {
    var r := Apply(s, Grow(block));
    forall a ensures EntryFits(r.chain, r.table, a, AnsweredAt(r.answered, a)) {
      var at := AnsweredAt(s.answered, a);
      assert EntryFits(s.chain, s.table, a, at) && r.chain[..at] == s.chain[..at];
    }
    forall a ensures TouchedIn(r.chain, 1, r.tip.persisted + 1, a) ==> a in r.answered {
      PrefixTouched(s.chain, block, 1, s.tip.persisted + 1, a);
    }
    forall a | a in r.answered ensures TouchedIn(r.chain, 1, |r.chain|, a) {
      PrefixTouched(s.chain, block, 1, 1, a);
    }
    if s.stage != Next {
      assert r.chain[CurrentBlock(s)] == s.chain[CurrentBlock(s)];
      if s.stage.Writing? && s.stage.todo != [] { assert r.chain[..s.at] == s.chain[..s.at]; }
    }
  }

  // Where the current block stands: next after the last processed, at or just above the stored height.
  lemma CurrentIsNext(s: State)
    requires Tips.Inv(s.tip) && Current(s)
    ensures CurrentBlock(s) == s.tip.lastChecked + 1 && s.tip.persisted <= CurrentBlock(s) <= s.tip.persisted + 1
  {
    Tips.RangeTail(s.tip.lastChecked + 1, s.tip.runs[0].height);
  }

  // A write makes its own entry the balance told, and leaves every other alone.
  lemma EntryKeeps(s: State)
    requires Inv(s) && s.stage.Writing? && s.stage.todo != []
    ensures var r := WithEntry(s);
      EntriesFit(r.chain, r.table, r.answered) && AnsweredFit(r.chain, r.tip.persisted, r.answered)
  {
    var r, a := WithEntry(s), s.stage.todo[0];
    forall x ensures EntryFits(r.chain, r.table, x, AnsweredAt(r.answered, x)) {
      if x != a { assert EntryFits(s.chain, s.table, x, AnsweredAt(s.answered, x)); }
    }
    forall x | x in r.answered ensures TouchedIn(r.chain, 1, |r.chain|, x) {
      if x == a { assert a in Touched(s.chain[CurrentBlock(s)]); }
    }
  }

  lemma WriteKeeps(s: State)
    requires Inv(s) && Enabled(s, Written)
    ensures Inv(Apply(s, Written))
  {
    var r := Apply(s, Written);
    EntryKeeps(s);
    assert s.stage.todo == [s.stage.todo[0]] + r.stage.todo;
  }

  lemma FailAfterWriteKeeps(s: State)
    requires Inv(s) && Enabled(s, WrittenFailed)
    ensures Inv(Apply(s, WrittenFailed))
  {
    EntryKeeps(s);
    Tips.StepKeepsInv(s.tip, Tips.Failed(0));
  }

  lemma RecordKeeps(s: State, e: Event)
    requires Inv(s) && Enabled(s, e) && (e.Recorded? || e.RecordedFailed?)
    ensures Inv(Apply(s, e))
  {
    var r, k := Apply(s, e), CurrentBlock(s);
    CurrentIsNext(s);
    Tips.StepKeepsInv(s.tip, TipEvent(e).value);
    forall a | TouchedIn(r.chain, 1, k + 1, a) ensures a in r.answered {
      var j :| 1 <= j < k + 1 && a in Touched(s.chain[j]);
      if j < k { assert TouchedIn(s.chain, 1, s.tip.persisted + 1, a); }
    }
  }

  lemma OtherKeeps(s: State, e: Event)
    requires Inv(s) && Enabled(s, e)
    requires e.Tip? || e.Restart? || e.Failed? || e.Cached? || e.Fetched? || e.Told?
    ensures Inv(Apply(s, e))
  {
    if TipEvent(e).Some? {
      Tips.StepKeepsInv(s.tip, TipEvent(e).value);
    } else {
      CurrentIsNext(s);
    }
  }

  // Whatever the node answers, in every interleaving: each entry is the balance after the blocks its answer took into
  // account, and the addresses of every block up to the stored height have been written.
  lemma StepKeepsInv(s: State, e: Event)
    requires Inv(s) && Enabled(s, e)
    ensures Inv(Apply(s, e))
  {
    match e
    case Grow(block) => GrowKeeps(s, block);
    case Written => WriteKeeps(s);
    case WrittenFailed => FailAfterWriteKeeps(s);
    case Recorded => RecordKeeps(s, e);
    case RecordedFailed => RecordKeeps(s, e);
    case _ => OtherKeeps(s, e);
  }

  // ----- answers that take the block in hand into account -----

  predicate Fresh(s: State, e: Event)
    requires Enabled(s, e)
  {
    e.Told? ==> CurrentBlock(s) < e.at
  }

  // Every entry takes the blocks up to the stored height that touch it into account; entries written for the block in
  // hand, and a balance that waits to be written, that block as well.
  ghost predicate BlocksCovered(chain: seq<Block>, persisted: nat, answered: map<Address, nat>)
  {
    forall j, a :: 1 <= j <= persisted && j < |chain| && a in Touched(chain[j]) ==> j < AnsweredAt(answered, a)
  }

  ghost predicate Covered(s: State)
  {
    && BlocksCovered(s.chain, s.tip.persisted, s.answered)
    && (s.stage != Next ==> Current(s) && forall a :: a in s.stage.done ==> CurrentBlock(s) < AnsweredAt(s.answered, a))
    && (s.stage.Writing? ==> Current(s) && CurrentBlock(s) < s.at)
  }

  lemma GrowCovers(s: State, block: Block)
    requires Inv(s) && Covered(s)
    ensures Covered(Apply(s, Grow(block)))
  {
    var r := Apply(s, Grow(block));
    forall j, a | 1 <= j <= r.tip.persisted && j < |r.chain| && a in Touched(r.chain[j])
      ensures j < AnsweredAt(r.answered, a)
    {
      assert r.chain[j] == s.chain[j];
    }
  }

  lemma AnswerCovers(chain: seq<Block>, persisted: nat, answered: map<Address, nat>, a: Address, at: nat)
    requires BlocksCovered(chain, persisted, answered) && persisted < at
    ensures BlocksCovered(chain, persisted, answered[a := at])
  {
    forall j, x | 1 <= j <= persisted && j < |chain| && x in Touched(chain[j]) ensures j < AnsweredAt(answered[a := at], x) {
      assert j < AnsweredAt(answered, x);
    }
  }

  lemma WriteCovers(s: State, e: Event)
    requires Inv(s) && Covered(s) && Enabled(s, e) && (e.Written? || e.WrittenFailed?)
    ensures Covered(Apply(s, e))
  {
    var r, a := Apply(s, e), s.stage.todo[0];
    CurrentIsNext(s);
    AnswerCovers(s.chain, s.tip.persisted, s.answered, a, s.at);
    assert r.tip.persisted == s.tip.persisted && r.answered == s.answered[a := s.at];
  }

  lemma RecordCovers(s: State, e: Event)
    requires Inv(s) && Covered(s) && Enabled(s, e) && (e.Recorded? || e.RecordedFailed?)
    ensures Covered(Apply(s, e))
  {
    var r, k := Apply(s, e), CurrentBlock(s);
    CurrentIsNext(s);
    assert r.tip.persisted == k;
    forall j, a | 1 <= j <= k && j < |s.chain| && a in Touched(s.chain[j]) ensures j < AnsweredAt(s.answered, a) {
      if j == k { assert a in s.stage.done; } else { assert j <= s.tip.persisted; }
    }
  }

  lemma FreshStepCovers(s: State, e: Event)
    requires Inv(s) && Covered(s) && Enabled(s, e) && Fresh(s, e)
    ensures Covered(Apply(s, e))
  {
    match e
    case Grow(block) => GrowCovers(s, block);
    case Written => WriteCovers(s, e);
    case WrittenFailed => WriteCovers(s, e);
    case Recorded => RecordCovers(s, e);
    case RecordedFailed => RecordCovers(s, e);
    case _ =>
  }

  // A block from k on that touches the address.
  predicate Due(chain: seq<Block>, k: nat, a: Address) { TouchedIn(chain, k + 1, |chain|, a) }

  // The first block is never processed: what it alone touches stays out of the table.
  predicate OnlyGenesis(chain: seq<Block>, a: Address)
  {
    chain != [] && a in Touched(chain[0]) && !TouchedIn(chain, 1, |chain|, a)
  }

  // A balance changes only where a block touches the address.
  lemma {:induction false} UntouchedSince(chain: seq<Block>, h: nat, a: Address)
    requires h <= |chain| && !TouchedIn(chain, h, |chain|, a)
    ensures Balance(chain, a) == Balance(chain[..h], a)
    decreases |chain|
  {
    if h == |chain| {
      assert chain[..h] == chain;
    } else {
      var init, last := chain[..|chain| - 1], chain[|chain| - 1];
      assert init + [last] == chain;
      assert a !in Touched(last);
      UntouchedKeepsBalance(init, last, a);
      UntouchedSince(init, h, a);
      assert init[..h] == chain[..h];
    }
  }

  // With such answers, an address whose entry is wrong is touched by a block above the stored height; one already
  // written for the block in hand, by a block above that.
  lemma WrongIsDue(s: State, a: Address)
    requires Inv(s) && Covered(s) && Differs(s, a)
    ensures Due(s.chain, s.tip.persisted, a) || OnlyGenesis(s.chain, a)
    ensures s.stage != Next && a in s.stage.done ==> Due(s.chain, CurrentBlock(s), a)
  {
    var h := AnsweredAt(s.answered, a);
    assert EntryFits(s.chain, s.table, a, h);
    if !TouchedIn(s.chain, h, |s.chain|, a) {
      UntouchedSince(s.chain, h, a);
      assert false;
    }
    var j :| h <= j < |s.chain| && a in Touched(s.chain[j]);
    if j == 0 && TouchedIn(s.chain, 1, |s.chain|, a) {
      j :| 1 <= j < |s.chain| && a in Touched(s.chain[j]);
      assert h == 0;
    }
  }

  // ----- runs -----

  // A first start: nothing stored, over a chain that has at least its first block.
  function Init(chain: seq<Block>, height: nat): State
  {
    State(Tips.Init(0, height), Next, chain, map[], 0, map[])
  }

  lemma InitInv(chain: seq<Block>, height: nat)
    requires chain != []
    ensures Inv(Init(chain, height)) && Covered(Init(chain, height))
  {
    Tips.InitInv(0, height);
    assert chain[..0] == [];
  }

  predicate Possible(s: State, evs: seq<Event>)
    decreases |evs|
  {
    evs == [] || (Enabled(s, evs[0]) && Possible(Apply(s, evs[0]), evs[1..]))
  }

  function ApplyAll(s: State, evs: seq<Event>): State
    requires Possible(s, evs)
    decreases |evs|
  {
    if evs == [] then s else ApplyAll(Apply(s, evs[0]), evs[1..])
  }

  predicate AllFresh(s: State, evs: seq<Event>)
    requires Possible(s, evs)
    decreases |evs|
  {
    evs == [] || (Fresh(s, evs[0]) && AllFresh(Apply(s, evs[0]), evs[1..]))
  }

  lemma {:induction false} RunsKeepInv(s: State, evs: seq<Event>)
    requires Inv(s) && Possible(s, evs)
    ensures Inv(ApplyAll(s, evs))
    ensures Covered(s) && AllFresh(s, evs) ==> Covered(ApplyAll(s, evs))
    decreases |evs|
  {
    if evs != [] {
      StepKeepsInv(s, evs[0]);
      if Covered(s) && Fresh(s, evs[0]) { FreshStepCovers(s, evs[0]); }
      RunsKeepInv(Apply(s, evs[0]), evs[1..]);
    }
  }

  // ----- when the table is right -----

  // Exactly the addresses with a positive balance, each with that balance.
  ghost predicate Exact(s: State)
  {
    forall a :: !Differs(s, a)
  }

  ghost predicate GenesisHolder(chain: seq<Block>, a: Address) { OnlyGenesis(chain, a) && Balance(chain, a) > 0 }

  function Clipped(balance: int): int { if balance > 0 then balance else 0 }

  // The last answer written for the address came before a block that changed its balance.
  predicate Stale(s: State, a: Address)
  {
    a in s.answered && s.answered[a] <= |s.chain| && Clipped(Balance(s.chain[..s.answered[a]], a)) != Clipped(Balance(s.chain, a))
  }

  // Once the block at the height of the chain is processed, an entry is wrong exactly where its answer was stale or
  // the first block alone gave the address its balance.
  lemma WrongIff(s: State, a: Address)
    requires Inv(s) && s.tip.lastChecked == |s.chain| - 1
    ensures Differs(s, a) <==> Stale(s, a) || GenesisHolder(s.chain, a)
  {
    assert EntryFits(s.chain, s.table, a, AnsweredAt(s.answered, a));
    if a !in s.answered {
      assert s.chain[..0] == [];
      assert a !in s.table;
      assert !TouchedIn(s.chain, 1, |s.chain|, a);
      if a !in Touched(s.chain[0]) {
        UntouchedSince(s.chain, 0, a);
      }
    }
  }

  // After every interleaving of growth, tips, answers, failures and restarts: once the block at the height of the chain
  // is processed, the table is exact if and only if no last answer was stale and no address holds a balance from the
  // first block alone.
  lemma CaughtUpIsExactIff(chain: seq<Block>, height: nat, evs: seq<Event>)
    requires chain != [] && Possible(Init(chain, height), evs)
    ensures var s := ApplyAll(Init(chain, height), evs);
      s.tip.lastChecked == |s.chain| - 1 ==> (Exact(s) <==> forall a :: !Stale(s, a) && !GenesisHolder(s.chain, a))
  {
    var s := ApplyAll(Init(chain, height), evs);
    InitInv(chain, height);
    RunsKeepInv(Init(chain, height), evs);
    if s.tip.lastChecked == |s.chain| - 1 {
      forall a ensures Differs(s, a) <==> Stale(s, a) || GenesisHolder(s.chain, a) {
        WrongIff(s, a);
      }
    }
  }

  // Where every answer takes the block in hand into account, none is stale at the end: the table is exact if and only
  // if no address holds a balance from the first block alone.
  lemma CaughtUpIsExact(chain: seq<Block>, height: nat, evs: seq<Event>)
    requires chain != [] && Possible(Init(chain, height), evs) && AllFresh(Init(chain, height), evs)
    ensures var s := ApplyAll(Init(chain, height), evs);
      s.tip.lastChecked == |s.chain| - 1 ==> (Exact(s) <==> forall a :: !GenesisHolder(s.chain, a))
  {
    var s := ApplyAll(Init(chain, height), evs);
    InitInv(chain, height);
    RunsKeepInv(Init(chain, height), evs);
    if s.tip.lastChecked == |s.chain| - 1 {
      forall a ensures Differs(s, a) <==> GenesisHolder(s.chain, a) {
        WrongIff(s, a);
        if Differs(s, a) { WrongIsDue(s, a); }
      }
    }
  }

  // Idle after a run that ended well, with the height of the chain among the tips: the table is up to date.
  lemma IdleIsCaughtUp(s: State)
    requires Inv(s) && !s.tip.inProcess && s.tip.settled && |s.chain| - 1 in s.tip.tips
    ensures s.tip.lastChecked == |s.chain| - 1
  {
  }

  // ----- two runs that leave the table wrong -----

  lemma Unfold(s: State, e: Event, rest: seq<Event>)
    requires Enabled(s, e) && Possible(Apply(s, e), rest)
    ensures Possible(s, [e] + rest) && ApplyAll(s, [e] + rest) == ApplyAll(Apply(s, e), rest)
  {
    assert ([e] + rest)[1..] == rest;
  }

  function Paying(a: Address): Block { [Tx([], [Output([a], 1)])] }

  lemma PayingPays(a: Address)
    ensures Delta(Paying(a), a) == 1 && Touched(Paying(a)) == [a]
  {
    var block := Paying(a);
    assert block[1..] == [] && block[0].vout[1..] == [] && [a][1..] == [];
    assert Received([], a) == 0 && Delta([], a) == 0;
    assert NotedAll([], [a]) == NotedAll([a], []) == [a];
    assert NotedOutputs([], block[0].vout) == NotedOutputs([a], []) == [a];
    assert NotedBlock([], block) == NotedBlock([a], []);
  }

  lemma EmptyBlockPaysNothing(a: Address)
    ensures Balance([[]], a) == 0
  {
    var chain: seq<Block> := [[]];
    assert chain[..0] == [];
    assert Balance(chain[..0], a) == 0 && Delta([], a) == 0;
  }

  // A chain of one block that pays to one address: idle, up to date, and the address is not in the table.
  lemma GenesisIsMissed(a: Address)
    ensures Possible(Init([Paying(a)], 0), [Cached])
    ensures var s := ApplyAll(Init([Paying(a)], 0), [Cached]);
      !s.tip.inProcess && s.tip.settled && s.tip.lastChecked == |s.chain| - 1 && Differs(s, a)
  {
    var s0 := Init([Paying(a)], 0);
    assert s0.tip.runs == [Tips.Run(0, [])];
    Unfold(s0, Cached, []);
    assert [Cached] + [] == [Cached];
    PayingPays(a);
    assert Balance([], a) == 0 && [Paying(a)][..0] == [];
  }

  const STALE_RUN := [Fetched, Told(1), Written, Recorded, Cached]

  // A block pays to an address, and the node answers with the balance it knew before that block: idle, up to date, no
  // balance from the first block, and the address is not in the table.
  lemma StaleAnswerIsStored(a: Address)
    ensures Possible(Init([[], Paying(a)], 1), STALE_RUN)
    ensures var s := ApplyAll(Init([[], Paying(a)], 1), STALE_RUN);
      && !s.tip.inProcess && s.tip.settled && s.tip.lastChecked == |s.chain| - 1
      && Differs(s, a) && Stale(s, a) && forall x :: !GenesisHolder(s.chain, x)
  {
    var s0 := Init([[], Paying(a)], 1);
    PayingPays(a);
    var s2 := ToldStale(a, s0);
    var s5 := EndStale(a, s2);
    StaleFrom(s0, s2, s5);
  }

  lemma StaleFrom(s0: State, s2: State, s5: State)
    requires Enabled(s0, Fetched) && Enabled(Apply(s0, Fetched), Told(1)) && s2 == Apply(Apply(s0, Fetched), Told(1))
    requires Possible(s2, [Written, Recorded, Cached]) && s5 == ApplyAll(s2, [Written, Recorded, Cached])
    ensures Possible(s0, STALE_RUN) && ApplyAll(s0, STALE_RUN) == s5
  {
    var s1 := Apply(s0, Fetched);
    Unfold(s1, Told(1), [Written, Recorded, Cached]);
    Unfold(s0, Fetched, [Told(1)] + [Written, Recorded, Cached]);
    assert STALE_RUN == [Fetched] + ([Told(1)] + [Written, Recorded, Cached]);
  }

  lemma ToldStale(a: Address, s0: State) returns (s: State)
    requires s0 == Init([[], Paying(a)], 1) && Touched(Paying(a)) == [a]
    ensures Enabled(s0, Fetched) && Enabled(Apply(s0, Fetched), Told(1)) && s == Apply(Apply(s0, Fetched), Told(1))
    ensures s == s0.(stage := Writing([a], {}, 0), at := 1) && s.tip.runs == [Tips.Run(1, [1])]
  {
    assert Tips.Range(1, 1) == [1];
    s := Apply(Apply(s0, Fetched), Told(1));
    var chain := [[], Paying(a)];
    assert chain[..1] == [[]];
    EmptyBlockPaysNothing(a);
  }

  lemma EndStale(a: Address, s: State) returns (r: State)
    requires s == Init([[], Paying(a)], 1).(stage := Writing([a], {}, 0), at := 1) && s.tip.runs == [Tips.Run(1, [1])]
    requires Delta(Paying(a), a) == 1
    ensures Possible(s, [Written, Recorded, Cached]) && r == ApplyAll(s, [Written, Recorded, Cached])
    ensures !r.tip.inProcess && r.tip.settled && r.tip.lastChecked == 1 && r.chain == s.chain
    ensures Differs(r, a) && Stale(r, a) && forall x :: !GenesisHolder(r.chain, x)
  {
    var s3 := Apply(s, Written);
    var s4 := Apply(s3, Recorded);
    r := Apply(s4, Cached);
    Unfold(s4, Cached, []);
    Unfold(s3, Recorded, [Cached]);
    Unfold(s, Written, [Recorded, Cached]);
    assert [Written] + ([Recorded] + ([Cached] + [])) == [Written, Recorded, Cached];
    var chain := s.chain;
    assert chain[..1] == [[]] && chain[0] == [];
    EmptyBlockPaysNothing(a);
    assert Balance(chain, a) == 1;
    assert r.answered == map[a := 1];
    assert Touched([]) == [];
  }

  // ----- the code: handlers of what the service waits for -----

  class AddressBalanceService {
    var lastTipHeight: nat
    var lastTipInProcess: bool
    var lastCheckedBlock: nat
    var runs: seq<Tips.Run>             // the continuations that wait for a call to return
    var stage: Stage
    var lastBlock: nat                  // the stored height
    var balances: map<Address, int>     // the stored table
    ghost var chain: seq<Block>
    ghost var at: nat
    ghost var answered: map<Address, nat>
    ghost var from: nat
    ghost var processed: seq<nat>
    ghost var tips: seq<nat>
    ghost var settled: bool

    ghost function TipView(): Tips.State reads this
    {
      Tips.State(lastTipHeight, lastTipInProcess, lastCheckedBlock, lastBlock, runs, from, processed, tips, settled)
    }

    ghost function View(): State reads this { State(TipView(), stage, chain, balances, at, answered) }

    constructor (lastBlock: nat, balances: map<Address, int>, height: nat, ghost chain: seq<Block>)
      ensures View() == State(Tips.Init(lastBlock, height), Next, chain, balances, 0, map[])
    {
      this.lastBlock, this.balances, this.chain, at, answered := lastBlock, balances, chain, 0, map[];
      lastTipHeight, lastTipInProcess, lastCheckedBlock, runs, stage := height, false, lastBlock, [], Next;
      from, processed, tips, settled := lastBlock, [], [height], false;
      new;
      RapidProtectedUpdateTip(height);
    }

    method RapidProtectedUpdateTip(height: nat)
      modifies this`lastTipHeight, this`lastTipInProcess, this`runs, this`stage
      ensures TipView() == Tips.UpdateTip(old(TipView()), height)
      ensures stage == if old(lastTipInProcess) then old(stage) else Next
    {
      if height > lastTipHeight { lastTipHeight := height; }
      if lastTipInProcess { return; }
      lastTipInProcess := true;
      ProcessLastBlocks(height);
    }

    method ProcessLastBlocks(height: nat)
      modifies this`runs, this`stage
      ensures runs == old(runs) + [Tips.Run(height, Tips.Range(lastCheckedBlock + 1, height))] && stage == Next
    {
      var blocks: seq<nat> := [];
      var i := lastCheckedBlock + 1;
      while i <= height
        invariant lastCheckedBlock + 1 <= i && (i <= height + 1 || i == lastCheckedBlock + 1)
        invariant blocks == Tips.Range(lastCheckedBlock + 1, i - 1) && runs == old(runs)
      {
        Tips.RangeSnoc(lastCheckedBlock + 1, i - 1);
        blocks := blocks + [i];
        i := i + 1;
      }
      runs, stage := runs + [Tips.Run(height, blocks)], Next;
    }

    method OnTip(height: nat)
      modifies this
      ensures View() == Apply(old(View()), Tip(height))
    {
      tips := tips + [height];
      RapidProtectedUpdateTip(height);
    }

    // The block and its transactions: collect the addresses they mention.
    method OnBlock(block: Block)
      requires Enabled(View(), Fetched) && block == chain[CurrentBlock(View())]
      modifies this`stage
      ensures View() == Apply(old(View()), Fetched)
    {
      var addresses := CollectAddresses(block);
      stage := Asking(addresses, {});
    }

    // The node's answer, which may come from its cache; `at` is how many blocks it takes into account.
    method OnBalance(balance: int, ghost at: nat)
      requires Enabled(View(), Told(at)) && balance == Balance(chain[..at], stage.todo[0])
      modifies this`stage, this`at
      ensures View() == Apply(old(View()), Told(at))
    {
      stage := Writing(stage.todo, stage.done, balance);
      this.at := at;
    }

    // The write reaches the table; err is what the callback is told.
    method WriteBalance(err: bool)
      requires Enabled(View(), Written)
      modifies this
      ensures View() == Apply(old(View()), if err then WrittenFailed else Written)
    {
      var address := stage.todo[0];
      if stage.balance > 0 {
        balances := balances[address := stage.balance];
      } else {
        balances := balances - {address};
      }
      answered := answered[address := at];
      if err { EndRun(true); } else { stage := Asking(stage.todo[1..], stage.done + {address}); }
    }

    method RecordBlock(err: bool)
      requires Enabled(View(), Recorded)
      modifies this
      ensures View() == Apply(old(View()), if err then RecordedFailed else Recorded)
    {
      lastBlock := runs[0].blocks[0];
      if err { EndRun(true); } else { MoveOn(); }
    }

    method MoveOn()
      requires |runs| == 1 && runs[0].blocks != [] && lastBlock == runs[0].blocks[0]
      modifies this`lastCheckedBlock, this`stage, this`processed, this`runs
      ensures stage == Next
      ensures TipView() == Tips.Apply(old(TipView()), Tips.BlockDone(0))
    {
      var run := runs[0];
      lastCheckedBlock, stage := run.blocks[0], Next;
      processed := processed + [run.blocks[0]];
      runs := runs[0 := Tips.Run(run.height, run.blocks[1..])];
    }

    method OnFailure()
      requires Enabled(View(), Failed)
      modifies this
      ensures View() == Apply(old(View()), Failed)
    {
      EndRun(true);
    }

    method OnCached()
      requires Enabled(View(), Cached)
      modifies this
      ensures View() == Apply(old(View()), Cached)
    {
      EndRun(false);
    }

    // The end of a run: start another for a tip that arrived since.
    method EndRun(err: bool)
      requires |runs| == 1
      modifies this`lastTipInProcess, this`runs, this`stage, this`settled, this`lastTipHeight
      ensures stage == Next
      ensures TipView() == if err then Tips.EndRun(old(TipView()), 0, false)
        else AfterGoodRun(old(TipView()))
    {
      var height := runs[0].height;
      lastTipInProcess, runs, stage, settled := false, runs[..0] + runs[1..], Next, !err;
      if err { return; }
      if lastTipHeight != height {
        RapidProtectedUpdateTip(lastTipHeight);
      }
    }
  }

  function AfterGoodRun(tip: Tips.State): Tips.State
    requires |tip.runs| == 1
  {
    var ended := Tips.EndRun(tip, 0, true);
    if ended.lastTipHeight != tip.runs[0].height then Tips.UpdateTip(ended, ended.lastTipHeight) else ended
  }

  method CollectAddresses(block: Block) returns (list: seq<Address>)
    ensures list == Touched(block) && Distinct(list)
  {
    list := [];
    for i := 0 to |block|
      invariant NotedBlock(list, block[i..]) == Touched(block)
    {
      var tx := block[i];
      list := CollectInputs(list, tx.vin);
      list := CollectOutputs(list, tx.vout);
      assert block[i..][1..] == block[i + 1..];
    }
    BlockNoted([], block, "");
  }

  method CollectInputs(before: seq<Address>, vin: seq<Input>) returns (list: seq<Address>)
    ensures list == NotedInputs(before, vin)
  {
    list := before;
    for i := 0 to |vin|
      invariant NotedInputs(list, vin[i..]) == NotedInputs(before, vin)
    {
      assert vin[i..][1..] == vin[i + 1..];
      if vin[i].address.Some? && vin[i].address.value !in list {
        list := list + [vin[i].address.value];
      }
    }
  }

  method CollectOutputs(before: seq<Address>, vout: seq<Output>) returns (list: seq<Address>)
    ensures list == NotedOutputs(before, vout)
  {
    list := before;
    for i := 0 to |vout|
      invariant NotedOutputs(list, vout[i..]) == NotedOutputs(before, vout)
    {
      assert vout[i..][1..] == vout[i + 1..];
      var addresses := vout[i].addresses;
      ghost var start := list;
      for j := 0 to |addresses|
        invariant NotedAll(list, addresses[j..]) == NotedAll(start, addresses)
      {
        assert addresses[j..][1..] == addresses[j + 1..];
        if addresses[j] !in list {
          list := list + [addresses[j]];
        }
      }
    }
  }
}
