// The tip-update protocol shared by the balance index, the token watcher and the mined-blocks counter: tips arrive at
// any moment, one run at a time works off the blocks up to a height, calls fail, the process restarts.

module TipProtocol {

  // A run holds the heights it still has to process, in order.
  datatype Run = Run(height: nat, blocks: seq<nat>)

  // The last four fields record history: where this process began, the heights it processed, the tips it saw, and
  // whether the last run to end ended well.
  datatype State = State(lastTipHeight: nat, inProcess: bool, lastChecked: nat, persisted: nat, runs: seq<Run>,
                         from: nat, processed: seq<nat>, tips: seq<nat>, settled: bool)

  // BlockDone and the events after it happen to the i-th of the runs under way.
  datatype Event =
    | Tip(height: nat)
    | Restart(height: nat)
    | BlockDone(i: nat)
    | Recorded(i: nat)     // the height was stored, but the caller was told otherwise: the run fails
    | Failed(i: nat)
    | Finished(i: nat)

  function Range(lo: nat, hi: nat): seq<nat>
  {
    if lo > hi then [] else seq(hi + 1 - lo, k requires 0 <= k => lo + k)
  }

  function Max(a: nat, b: nat): nat { if a < b then b else a }

  function StartRun(s: State, height: nat): State
  {
    s.(inProcess := true, runs := s.runs + [Run(height, Range(s.lastChecked + 1, height))])
  }

  // A tip: remember the highest, and start a run unless one is under way.
  function UpdateTip(s: State, height: nat): State
  {
    var seen := s.(lastTipHeight := Max(s.lastTipHeight, height));
    if seen.inProcess then seen else StartRun(seen, height)
  }

  function EndRun(s: State, i: nat, ok: bool): State
    requires i < |s.runs|
  {
    s.(inProcess := false, runs := s.runs[..i] + s.runs[i + 1..], settled := ok)
  }

  function Init(persisted: nat, height: nat): State
  {
    StartRun(State(height, false, persisted, persisted, [], persisted, [], [height], false), height)
  }

  predicate Enabled(s: State, e: Event)
  {
    match e
    case Tip(_) => true
    case Restart(_) => true
    case BlockDone(i) => i < |s.runs| && s.runs[i].blocks != []
    case Recorded(i) => i < |s.runs| && s.runs[i].blocks != []
    case Failed(i) => i < |s.runs|
    case Finished(i) => i < |s.runs| && s.runs[i].blocks == []
  }

  function Apply(s: State, e: Event): State
    requires Enabled(s, e)
  {
    match e
    case Tip(height) => UpdateTip(s.(tips := s.tips + [height]), height)
    case Restart(height) => Init(s.persisted, height)
    case BlockDone(i) =>
      var run := s.runs[i];
      s.(lastChecked := run.blocks[0], persisted := run.blocks[0], processed := s.processed + [run.blocks[0]],
         runs := s.runs[i := Run(run.height, run.blocks[1..])])
    case Recorded(i) => EndRun(s.(persisted := s.runs[i].blocks[0]), i, false)
    case Failed(i) => EndRun(s, i, false)
    case Finished(i) =>
      var ended := EndRun(s, i, true);
      if ended.lastTipHeight != s.runs[i].height then UpdateTip(ended, ended.lastTipHeight) else ended
  }

  predicate Possible(s: State, evs: seq<Event>)
    decreases |evs|
  {
    evs == [] || (Enabled(s, evs[0]) && Possible(Apply(s, evs[0]), evs[1..]))
  }

  function ApplyAll(s: State, evs: seq<Event>): State
    requires Possible(s, evs)
    decreases |evs|
  {
    if evs == [] then s else ApplyAll(Apply(s, evs[0]), evs[1..])
  }

  // ----- what every interleaving keeps -----

  predicate OneRun(s: State)
  {
    if s.inProcess then |s.runs| == 1 && RunFits(s, s.runs[0]) else s.runs == []
  }

  predicate RunFits(s: State, run: Run)
  {
    run.blocks == Range(s.lastChecked + 1, run.height) && run.height <= s.lastTipHeight
  }

  // At most one run, over exactly the heights not yet processed; heights processed without gap or repeat; the stored
  // height at most one ahead; after a run that ended well and started no other, everything announced is processed.
  predicate Inv(s: State)
  {
    && OneRun(s)
    && s.lastChecked <= s.persisted <= s.lastChecked + 1
    && s.from <= s.lastChecked && s.processed == Range(s.from + 1, s.lastChecked)
    && (forall t :: t in s.tips ==> t <= s.lastTipHeight)
    && (!s.inProcess && s.settled ==> s.lastTipHeight <= s.lastChecked)
  }

  lemma InitInv(persisted: nat, height: nat)
    ensures Inv(Init(persisted, height))
  {
  }

  lemma RangeTail(lo: nat, hi: nat)
    requires lo <= hi
    ensures Range(lo, hi)[0] == lo && Range(lo, hi)[1..] == Range(lo + 1, hi)
  {
  }

  lemma RangeSnoc(lo: nat, hi: nat)
    requires lo <= hi + 1
    ensures Range(lo, hi + 1) == Range(lo, hi) + [hi + 1]
  {
  }

  lemma EndRunIsIdle(s: State, i: nat, ok: bool)
    requires OneRun(s) && i < |s.runs|
    ensures EndRun(s, i, ok).runs == [] && i == 0
  {
  }

  lemma BlockKeepsInv(s: State, i: nat)
    requires Inv(s) && Enabled(s, BlockDone(i))
    ensures Inv(Apply(s, BlockDone(i)))
  {
    RangeTail(s.lastChecked + 1, s.runs[0].height);
    RangeSnoc(s.from + 1, s.lastChecked);
  }

  lemma FailureKeepsInv(s: State, e: Event)
    requires Inv(s) && Enabled(s, e) && (e.Failed? || e.Recorded?)
    ensures Inv(Apply(s, e))
  {
    if e.Recorded? { RangeTail(s.lastChecked + 1, s.runs[0].height); }
    EndRunIsIdle(s, e.i, false);
  }

  lemma FinishKeepsInv(s: State, i: nat)
    requires Inv(s) && Enabled(s, Finished(i))
    ensures Inv(Apply(s, Finished(i)))
  {
    EndRunIsIdle(s, i, true);
  }

  lemma StepKeepsInv(s: State, e: Event)
    requires Inv(s) && Enabled(s, e)
    ensures Inv(Apply(s, e))
  {
    match e
    case Tip(_) =>
    case Restart(height) => InitInv(s.persisted, height);
    case BlockDone(i) => BlockKeepsInv(s, i);
    case Recorded(i) => FailureKeepsInv(s, e);
    case Failed(i) => FailureKeepsInv(s, e);
    case Finished(i) => FinishKeepsInv(s, i);
  }

  lemma {:induction false} RunsKeepInv(s: State, evs: seq<Event>)
    requires Inv(s) && Possible(s, evs)
    ensures Inv(ApplyAll(s, evs))
    decreases |evs|
  {
    if evs != [] {
      StepKeepsInv(s, evs[0]);
      RunsKeepInv(Apply(s, evs[0]), evs[1..]);
    }
  }

  // ----- runs stop once tips stop -----

  predicate Quiet(e: Event) { !e.Tip? && !e.Restart? }

  // How many more events can happen without another tip: a block each, and the end of at most two runs.
  function Work(s: State): nat
    requires OneRun(s)
  {
    if !s.inProcess then 0
    else
      var left := if s.lastChecked < s.lastTipHeight then s.lastTipHeight - s.lastChecked else 0;
      left + if s.runs[0].height == s.lastTipHeight then 1 else 2
  }

  lemma QuietStepWorks(s: State, e: Event)
    requires Inv(s) && Enabled(s, e) && Quiet(e)
    ensures Inv(Apply(s, e)) && Work(Apply(s, e)) < Work(s)
  {
    StepKeepsInv(s, e);
    if e.BlockDone? {
      RangeTail(s.lastChecked + 1, s.runs[0].height);
    }
  }

  // Without tips and restarts no more events than that are possible, however they interleave.
  lemma {:induction false} QuietRunsStop(s: State, evs: seq<Event>)
    requires Inv(s) && Possible(s, evs) && forall e :: e in evs ==> Quiet(e)
    ensures |evs| <= Work(s)
    decreases |evs|
  {
    if evs != [] {
      QuietStepWorks(s, evs[0]);
      QuietRunsStop(Apply(s, evs[0]), evs[1..]);
    }
  }

  // A run that ends well starts another only for a tip it was not told of when it began.
  lemma FinishedIdleIff(s: State, i: nat)
    requires Inv(s) && Enabled(s, Finished(i))
    ensures !Apply(s, Finished(i)).inProcess <==> s.runs[0].height == s.lastTipHeight
    ensures s.runs[0].height != s.lastTipHeight ==> Apply(s, Finished(i)).runs[0].height == s.lastTipHeight
  {
    EndRunIsIdle(s, i, true);
  }
}
