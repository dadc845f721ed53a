// The mined-blocks counter (services/AddressBlocksMinedService.js): one increment per block for the address that mined
// it, under the same tip protocol. A counter is not repeatable work, and a retried block is counted again.

module MinedCounter {
  import Tips = TipProtocol

  type Address = string

  // No address: the block was mined by nobody the node can name.
  datatype Miner = Nobody | By(address: Address)

  // extra records increments that the stored height does not account for.
  datatype State = State(tip: Tips.State, counted: bool, chain: seq<Miner>, counts: map<Address, nat>, extra: map<Address, nat>)

  datatype Event =
    | Grow(miner: Miner)
    | Tip(height: nat)
    | Restart(height: nat)
    | Counted            // the increment for the current block is stored, or there is none to store
    | CountedFailed      // stored, but the caller is told otherwise
    | Recorded
    | RecordedFailed
    | Failed
    | Finished

  function Of(m: map<Address, nat>, a: Address): nat { if a in m then m[a] else 0 }

  function Incremented(m: map<Address, nat>, miner: Miner): map<Address, nat>
  {
    match miner case Nobody => m case By(a) => m[a := Of(m, a) + 1]
  }

  predicate Current(s: State) { |s.tip.runs| == 1 && s.tip.runs[0].blocks != [] && s.tip.runs[0].blocks[0] < |s.chain| }

  function CurrentBlock(s: State): nat
    requires Current(s)
  {
    s.tip.runs[0].blocks[0]
  }

  predicate Enabled(s: State, e: Event)
  {
    match e
    case Grow(_) => true
    case Tip(_) => true
    case Restart(_) => true
    case Counted => Current(s) && !s.counted
    case CountedFailed => Current(s) && !s.counted
    case Recorded => Current(s) && s.counted
    case RecordedFailed => Current(s) && s.counted
    case Failed => |s.tip.runs| == 1
    case Finished => |s.tip.runs| == 1 && s.tip.runs[0].blocks == []
  }

  // The increment in hand when a run is cut off is an extra one; so is that of a block already stored.
  function Dropped(s: State): map<Address, nat>
  {
    if s.counted && Current(s) && CurrentBlock(s) > s.tip.persisted then Incremented(s.extra, s.chain[CurrentBlock(s)])
    else s.extra
  }

  function Count(s: State): State
    requires Current(s)
  {
    var miner := s.chain[CurrentBlock(s)];
    s.(counted := true, counts := Incremented(s.counts, miner),
       extra := if CurrentBlock(s) <= s.tip.persisted then Incremented(s.extra, miner) else s.extra)
  }

  function Apply(s: State, e: Event): State
    requires Enabled(s, e)
  {
    match e
    case Grow(miner) => s.(chain := s.chain + [miner])
    case Tip(h) => s.(tip := Tips.Apply(s.tip, Tips.Tip(h)))
    case Restart(h) => s.(tip := Tips.Apply(s.tip, Tips.Restart(h)), counted := false, extra := Dropped(s))
    case Counted => Count(s)
    case CountedFailed => Fail(Count(s))
    case Recorded => s.(tip := Tips.Apply(s.tip, Tips.BlockDone(0)), counted := false)
    case RecordedFailed => s.(tip := Tips.Apply(s.tip, Tips.Recorded(0)), counted := false)
    case Failed => Fail(s)
    case Finished => s.(tip := Tips.Apply(s.tip, Tips.Finished(0)))
  }

  function Fail(s: State): State
    requires |s.tip.runs| == 1
  {
    s.(tip := Tips.Apply(s.tip, Tips.Failed(0)), counted := false, extra := Dropped(s))
  }

  // How many of the blocks from 1 to k the address mined.
  function Mined(chain: seq<Miner>, k: nat, a: Address): nat
  {
    if k == 0 then 0 else Mined(chain, k - 1, a) + if k < |chain| && chain[k] == By(a) then 1 else 0
  }

  // Counted for the current block, and not yet accounted for by the stored height.
  function Pending(s: State, a: Address): nat
  {
    if s.counted && Current(s) && CurrentBlock(s) > s.tip.persisted && s.chain[CurrentBlock(s)] == By(a) then 1 else 0
  }

  // Conservation: every increment belongs to a stored block, to the block in hand, or is an extra one.
  ghost predicate Conserved(s: State, a: Address)
  {
    Of(s.counts, a) == Mined(s.chain, s.tip.persisted, a) + Pending(s, a) + Of(s.extra, a)
  }

  ghost predicate Inv(s: State)
  {
    && Tips.Inv(s.tip) && s.tip.persisted < |s.chain| && (s.counted ==> Current(s))
    && forall a :: Conserved(s, a)
  }

  lemma {:induction false} MinedGrows(chain: seq<Miner>, miner: Miner, k: nat, a: Address)
    requires k < |chain|
    ensures Mined(chain + [miner], k, a) == Mined(chain, k, a)
  {
    if k > 0 { MinedGrows(chain, miner, k - 1, a); }
  }

  lemma CurrentIsNext(s: State)
    requires Tips.Inv(s.tip) && Current(s)
    ensures CurrentBlock(s) == s.tip.lastChecked + 1 && s.tip.persisted <= CurrentBlock(s) <= s.tip.persisted + 1
  {
    Tips.RangeTail(s.tip.lastChecked + 1, s.tip.runs[0].height);
  }

  lemma GrowKeeps(s: State, miner: Miner)
    requires Inv(s)
    ensures Inv(Apply(s, Grow(miner)))
  {
    var r := Apply(s, Grow(miner));
    forall a ensures Conserved(r, a) {
      MinedGrows(s.chain, miner, s.tip.persisted, a);
      assert Conserved(s, a);
    }
  }

  lemma CountKeeps(s: State)
    requires Inv(s) && Enabled(s, Counted)
    ensures Inv(Count(s))
  {
    forall a ensures Conserved(Count(s), a) {
      assert Conserved(s, a);
    }
  }

  lemma FailKeeps(s: State)
    requires Inv(s) && |s.tip.runs| == 1
    ensures Inv(Fail(s))
  {
    Tips.StepKeepsInv(s.tip, Tips.Failed(0));
    forall a ensures Conserved(Fail(s), a) {
      assert Conserved(s, a);
    }
  }

  lemma RecordKeeps(s: State, e: Event)
    requires Inv(s) && Enabled(s, e) && (e.Recorded? || e.RecordedFailed?)
    ensures Inv(Apply(s, e))
  {
    var r := Apply(s, e);
    CurrentIsNext(s);
    Tips.StepKeepsInv(s.tip, if e.Recorded? then Tips.BlockDone(0) else Tips.Recorded(0));
    forall a ensures Conserved(r, a) {
      assert Conserved(s, a);
    }
  }

  lemma TipKeeps(s: State, e: Event)
    requires Inv(s) && Enabled(s, e) && (e.Tip? || e.Finished? || e.Restart?)
    ensures Inv(Apply(s, e))
  {
    var r := Apply(s, e);
    if e.Tip? {
      Tips.StepKeepsInv(s.tip, Tips.Tip(e.height));
    } else if e.Restart? {
      Tips.StepKeepsInv(s.tip, Tips.Restart(e.height));
    } else {
      Tips.StepKeepsInv(s.tip, Tips.Finished(0));
    }
    forall a ensures Conserved(r, a) {
      assert Conserved(s, a);
    }
  }

  // Every step keeps it.
  lemma StepKeepsInv(s: State, e: Event)
    requires Inv(s) && Enabled(s, e)
    ensures Inv(Apply(s, e))
  {
    match e
    case Grow(miner) => GrowKeeps(s, miner);
    case Counted => CountKeeps(s);
    case CountedFailed =>
      CountKeeps(s);
      FailKeeps(Count(s));
    case Failed => FailKeeps(s);
    case Recorded => RecordKeeps(s, e);
    case RecordedFailed => RecordKeeps(s, e);
    case _ => TipKeeps(s, e);
  }

  // ----- increments that are lost or repeated -----

  predicate Increments(s: State, a: Address) { Current(s) && s.chain[CurrentBlock(s)] == By(a) }

  // An increment for the address that no stored height will account for: it is stored but the run fails at once; it is
  // for a block whose height is stored already; or a failure or a restart finds it in hand, its height not yet stored.
  predicate Wasted(s: State, e: Event, a: Address)
    requires Enabled(s, e)
  {
    match e
    case CountedFailed => Increments(s, a)
    case Counted => Increments(s, a) && CurrentBlock(s) <= s.tip.persisted
    case Failed => Pending(s, a) > 0
    case Restart(_) => Pending(s, a) > 0
    case _ => false
  }

  lemma WastedIsExtra(s: State, e: Event, a: Address)
    requires Enabled(s, e) && (s.counted ==> Current(s))
    ensures Of(Apply(s, e).extra, a) == Of(s.extra, a) + if Wasted(s, e, a) then 1 else 0
  {
  }

  // ----- runs -----

  function Init(chain: seq<Miner>, height: nat): State
  {
    State(Tips.Init(0, height), false, chain, map[], map[])
  }

  predicate Possible(s: State, evs: seq<Event>)
    decreases |evs|
  {
    evs == [] || (Enabled(s, evs[0]) && Possible(Apply(s, evs[0]), evs[1..]))
  }

  function ApplyAll(s: State, evs: seq<Event>): State
    requires Possible(s, evs)
    decreases |evs|
  {
    if evs == [] then s else ApplyAll(Apply(s, evs[0]), evs[1..])
  }

  lemma {:induction false} RunsKeepInv(s: State, evs: seq<Event>)
    requires Inv(s) && Possible(s, evs)
    ensures Inv(ApplyAll(s, evs))
    decreases |evs|
  {
    if evs != [] {
      StepKeepsInv(s, evs[0]);
      RunsKeepInv(Apply(s, evs[0]), evs[1..]);
    }
  }

  predicate AnyWasted(s: State, evs: seq<Event>, a: Address)
    requires Possible(s, evs)
    decreases |evs|
  {
    evs != [] && (Wasted(s, evs[0], a) || AnyWasted(Apply(s, evs[0]), evs[1..], a))
  }

  lemma {:induction false} ExtraOfRun(s: State, evs: seq<Event>, a: Address)
    requires Inv(s) && Possible(s, evs)
    ensures Of(ApplyAll(s, evs).extra, a) >= Of(s.extra, a)
    ensures Of(ApplyAll(s, evs).extra, a) == Of(s.extra, a) <==> !AnyWasted(s, evs, a)
    decreases |evs|
  {
    if evs != [] {
      WastedIsExtra(s, evs[0], a);
      StepKeepsInv(s, evs[0]);
      ExtraOfRun(Apply(s, evs[0]), evs[1..], a);
    }
  }

  lemma InitInv(chain: seq<Miner>, height: nat)
    requires chain != []
    ensures Inv(Init(chain, height))
  {
    Tips.InitInv(0, height);
    forall x ensures Conserved(Init(chain, height), x) {
      assert Mined(chain, 0, x) == 0;
    }
  }

  // After every interleaving the counters exceed the blocks mined up to the stored height by the extra increments.
  lemma CountersOverRuns(chain: seq<Miner>, height: nat, evs: seq<Event>, a: Address)
    requires chain != [] && Possible(Init(chain, height), evs)
    ensures var s := ApplyAll(Init(chain, height), evs);
      !s.counted ==> Of(s.counts, a) == Mined(s.chain, s.tip.persisted, a) + Of(s.extra, a)
  {
    InitInv(chain, height);
    RunsKeepInv(Init(chain, height), evs);
    assert Conserved(ApplyAll(Init(chain, height), evs), a);
  }

  // With no increment in hand a counter is never too low, and it is exact if and only if no increment was lost or repeated
  // on the way.
  lemma CountIsExactIff(chain: seq<Miner>, height: nat, evs: seq<Event>, a: Address)
    requires chain != [] && Possible(Init(chain, height), evs)
    ensures var s := ApplyAll(Init(chain, height), evs);
      !s.counted ==>
        && Of(s.counts, a) >= Mined(s.chain, s.tip.persisted, a)
        && (Of(s.counts, a) == Mined(s.chain, s.tip.persisted, a) <==> !AnyWasted(Init(chain, height), evs, a))
  {
    CountersOverRuns(chain, height, evs, a);
    InitInv(chain, height);
    ExtraOfRun(Init(chain, height), evs, a);
  }

  const RETRY := [Counted, Failed, Tip(1), Counted, Recorded]

  // A failure between the increment and the stored height: the retry counts the one block twice.
  lemma RetryCountsTwice(a: Address)
    ensures Possible(Init([Nobody, By(a)], 1), RETRY)
    ensures var s := ApplyAll(Init([Nobody, By(a)], 1), RETRY);
      s.tip.persisted == 1 && Mined(s.chain, 1, a) == 1 && Of(s.counts, a) == 2
  {
    var s1 := FirstAttempt(a);
    var s2 := SecondAttempt(a, s1);
    RetryFrom(Init([Nobody, By(a)], 1), s1, s2);
    assert Mined(s2.chain, 0, a) == 0;
  }

  lemma RetryFrom(s0: State, s1: State, s2: State)
    requires Enabled(s0, Counted) && s1 == Apply(s0, Counted)
    requires Possible(s1, [Failed, Tip(1), Counted, Recorded]) && s2 == ApplyAll(s1, [Failed, Tip(1), Counted, Recorded])
    ensures Possible(s0, RETRY) && s2 == ApplyAll(s0, RETRY)
  {
    Unfold(s0, Counted, [Failed, Tip(1), Counted, Recorded]);
    assert RETRY == [Counted] + [Failed, Tip(1), Counted, Recorded];
  }

  lemma FirstAttempt(a: Address) returns (s: State)
    ensures Enabled(Init([Nobody, By(a)], 1), Counted) && s == Apply(Init([Nobody, By(a)], 1), Counted)
    ensures Current(s) && CurrentBlock(s) == 1 && s.counted && Of(s.counts, a) == 1 && s.tip.inProcess
    ensures s.tip.lastChecked == s.tip.persisted == 0 && s.chain == [Nobody, By(a)]
  {
    assert Tips.Range(1, 1) == [1];
    s := Apply(Init([Nobody, By(a)], 1), Counted);
  }

  lemma SecondAttempt(a: Address, s: State) returns (r: State)
    requires Current(s) && CurrentBlock(s) == 1 && s.counted && Of(s.counts, a) == 1 && s.tip.inProcess
    requires s.tip.lastChecked == s.tip.persisted == 0 && s.chain == [Nobody, By(a)]
    ensures Possible(s, [Failed, Tip(1), Counted, Recorded])
    ensures r == ApplyAll(s, [Failed, Tip(1), Counted, Recorded]) && r.tip.persisted == 1 && Of(r.counts, a) == 2 && r.chain == s.chain
  {
    var s2 := Apply(s, Failed);
    var s3 := Apply(s2, Tip(1));
    assert Tips.Range(1, 1) == [1];
    assert s3.tip.runs == [Tips.Run(1, [1])];
    var s4 := Apply(s3, Counted);
    r := Apply(s4, Recorded);
    Unfold(s4, Recorded, []);
    Unfold(s3, Counted, [Recorded]);
    Unfold(s2, Tip(1), [Counted, Recorded]);
    Unfold(s, Failed, [Tip(1), Counted, Recorded]);
  }

  lemma Unfold(s: State, e: Event, rest: seq<Event>)
    requires Enabled(s, e) && Possible(Apply(s, e), rest)
    ensures Possible(s, [e] + rest) && ApplyAll(s, [e] + rest) == ApplyAll(Apply(s, e), rest)
  {
    assert ([e] + rest)[1..] == rest;
  }
}
