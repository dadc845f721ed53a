// The matching of CHECKMULTISIG: what its greedy loop decides.

module Matching {
  import opened Bytes
  import opened Script
  import opened Machine

  // f sends every signature to a key it verifies against, no two to the same key, and keeps their order.
  ghost predicate Assigns(trial: SigTrial, sub: seq<Chunk>, sigs: seq<bytes>, keys: seq<bytes>, f: seq<nat>)
  {
    && |f| == |sigs|
    && (forall i :: 0 <= i < |f| ==> f[i] < |keys| && trial(sub, sigs[i], keys[f[i]]) == Hit)
    && (forall i, j :: 0 <= i < j < |f| ==> f[i] < f[j])
  }

  ghost predicate Assignable(trial: SigTrial, sub: seq<Chunk>, sigs: seq<bytes>, keys: seq<bytes>)
  {
    exists f :: Assigns(trial, sub, sigs, keys, f)
  }

  // No encoding check fails.
  ghost predicate NoBad(trial: SigTrial, sub: seq<Chunk>, sigs: seq<bytes>, keys: seq<bytes>)
  {
    forall i, j :: 0 <= i < |sigs| && 0 <= j < |keys| ==> trial(sub, sigs[i], keys[j]) != Bad
  }

  function Shifted(f: seq<nat>): (g: seq<nat>)
    ensures |g| == |f| && forall i :: 0 <= i < |f| ==> g[i] == f[i] + 1
  {
    seq(|f|, i requires 0 <= i < |f| => f[i] + 1)
  }

  lemma AssignsBelow(f: seq<nat>, keys: nat)
    requires forall i, j :: 0 <= i < j < |f| ==> f[i] < f[j]
    requires forall i :: 0 <= i < |f| ==> f[i] < keys
    ensures |f| <= keys
    decreases |f|
  {
    if f != [] {
      AssignsBelow(f[..|f| - 1], f[|f| - 1]);
    }
  }

  // An assignment for the remaining keys, seen from all of them.
  lemma PrependMiss(trial: SigTrial, sub: seq<Chunk>, sigs: seq<bytes>, keys: seq<bytes>, f: seq<nat>)
    requires keys != [] && Assigns(trial, sub, sigs, keys[1..], f)
    ensures Assignable(trial, sub, sigs, keys)
  {
    assert Assigns(trial, sub, sigs, keys, Shifted(f));
  }

  lemma PrependHit(trial: SigTrial, sub: seq<Chunk>, sigs: seq<bytes>, keys: seq<bytes>, f: seq<nat>)
    requires sigs != [] && keys != [] && trial(sub, sigs[0], keys[0]) == Hit
    requires Assigns(trial, sub, sigs[1..], keys[1..], f)
    ensures Assignable(trial, sub, sigs, keys)
  {
    var g: seq<nat> := [0] + Shifted(f);
    forall i | 0 <= i < |g| ensures g[i] < |keys| && trial(sub, sigs[i], keys[g[i]]) == Hit {
      if i > 0 {
        assert g[i] == f[i - 1] + 1 && sigs[1..][i - 1] == sigs[i] && keys[1..][f[i - 1]] == keys[g[i]];
      }
    }
    assert Assigns(trial, sub, sigs, keys, g);
  }

  // Without its first signature an assignment does not use the first key.
  lemma WithoutFirst(trial: SigTrial, sub: seq<Chunk>, sigs: seq<bytes>, keys: seq<bytes>, f: seq<nat>)
    requires sigs != [] && keys != [] && Assigns(trial, sub, sigs, keys, f)
    ensures Assignable(trial, sub, sigs[1..], keys[1..])
  {
    assert forall i :: 1 <= i < |f| ==> f[i] > f[0];
    var g: seq<nat> := seq(|f| - 1, i requires 0 <= i < |f| - 1 => f[i + 1] - 1);
    assert Assigns(trial, sub, sigs[1..], keys[1..], g);
  }

  // Neither does one that sends the first signature elsewhere.
  lemma WithoutFirstKey(trial: SigTrial, sub: seq<Chunk>, sigs: seq<bytes>, keys: seq<bytes>, f: seq<nat>)
    requires sigs != [] && keys != [] && Assigns(trial, sub, sigs, keys, f) && f[0] > 0
    ensures Assignable(trial, sub, sigs, keys[1..])
  {
    assert forall i :: 0 <= i < |f| ==> f[i] >= f[0];
    var h: seq<nat> := seq(|f|, i requires 0 <= i < |f| => f[i] - 1);
    assert Assigns(trial, sub, sigs, keys[1..], h);
  }

  // A match found is an assignment, whatever the encodings.
  lemma {:induction false} GreedyIsSound(trial: SigTrial, sub: seq<Chunk>, sigs: seq<bytes>, keys: seq<bytes>)
    requires |sigs| <= |keys| && GreedyMatch(trial, sub, sigs, keys) == Matched(true)
    ensures Assignable(trial, sub, sigs, keys)
    decreases |keys|
  {
    if sigs == [] {
      assert Assigns(trial, sub, sigs, keys, []);
    } else {
      var hit := trial(sub, sigs[0], keys[0]) == Hit;
      var rest := if hit then sigs[1..] else sigs;
      GreedyIsSound(trial, sub, rest, keys[1..]);
      var f :| Assigns(trial, sub, rest, keys[1..], f);
      if hit { PrependHit(trial, sub, sigs, keys, f); } else { PrependMiss(trial, sub, sigs, keys, f); }
    }
  }

  // An assignment that exists is enough for the greedy loop: taking a match early never spoils a later one.
  lemma {:induction false} GreedyIsComplete(trial: SigTrial, sub: seq<Chunk>, sigs: seq<bytes>, keys: seq<bytes>, f: seq<nat>)
    requires |sigs| <= |keys| && NoBad(trial, sub, sigs, keys) && Assigns(trial, sub, sigs, keys, f)
    ensures GreedyMatch(trial, sub, sigs, keys) == Matched(true)
    decreases |keys|
  {
    if sigs != [] {
      WithoutFirst(trial, sub, sigs, keys, f);
      if f[0] > 0 { WithoutFirstKey(trial, sub, sigs, keys, f); }
      var rest := if trial(sub, sigs[0], keys[0]) == Hit then sigs[1..] else sigs;
      var g :| Assigns(trial, sub, rest, keys[1..], g);
      AssignsBelow(g, |keys| - 1);
      GreedyIsComplete(trial, sub, rest, keys[1..], g);
    }
  }

  lemma {:induction false} GreedyDecides(trial: SigTrial, sub: seq<Chunk>, sigs: seq<bytes>, keys: seq<bytes>)
    requires |sigs| <= |keys| && NoBad(trial, sub, sigs, keys)
    ensures GreedyMatch(trial, sub, sigs, keys) != Abort
    decreases |keys|
  {
    if sigs != [] {
      var rest := if trial(sub, sigs[0], keys[0]) == Hit then sigs[1..] else sigs;
      if |rest| <= |keys| - 1 {
        GreedyDecides(trial, sub, rest, keys[1..]);
      }
    }
  }

  // Where no encoding check fails the loop succeeds exactly when an order-preserving assignment exists, and never aborts.
  lemma GreedyIffAssignable(trial: SigTrial, sub: seq<Chunk>, sigs: seq<bytes>, keys: seq<bytes>)
    requires |sigs| <= |keys| && NoBad(trial, sub, sigs, keys)
    ensures GreedyMatch(trial, sub, sigs, keys) == Matched(Assignable(trial, sub, sigs, keys))
  {
    GreedyDecides(trial, sub, sigs, keys);
    if Assignable(trial, sub, sigs, keys) {
      var f :| Assigns(trial, sub, sigs, keys, f);
      GreedyIsComplete(trial, sub, sigs, keys, f);
    } else if GreedyMatch(trial, sub, sigs, keys) == Matched(true) {
      GreedyIsSound(trial, sub, sigs, keys);
    }
  }

  // Reading both lists from the other end changes nothing.
  lemma AssignsReversed(trial: SigTrial, sub: seq<Chunk>, sigs: seq<bytes>, keys: seq<bytes>, f: seq<nat>)
    requires Assigns(trial, sub, sigs, keys, f)
    ensures Assignable(trial, sub, Reverse(sigs), Reverse(keys))
  {
    var rsigs, rkeys := Reverse(sigs), Reverse(keys);
    ReverseElements(sigs);
    ReverseElements(keys);
    var g: seq<nat> := seq(|f|, i requires 0 <= i < |f| => |keys| - 1 - f[|f| - 1 - i]);
    assert Assigns(trial, sub, rsigs, rkeys, g);
  }

  lemma AssignableReversed(trial: SigTrial, sub: seq<Chunk>, sigs: seq<bytes>, keys: seq<bytes>)
    ensures Assignable(trial, sub, Reverse(sigs), Reverse(keys)) <==> Assignable(trial, sub, sigs, keys)
  {
    if Assignable(trial, sub, sigs, keys) {
      var f :| Assigns(trial, sub, sigs, keys, f);
      AssignsReversed(trial, sub, sigs, keys, f);
    }
    if Assignable(trial, sub, Reverse(sigs), Reverse(keys)) {
      var f :| Assigns(trial, sub, Reverse(sigs), Reverse(keys), f);
      AssignsReversed(trial, sub, Reverse(sigs), Reverse(keys), f);
      ReverseTwice(sigs);
      ReverseTwice(keys);
    }
  }

  // A key that passes its check never aborts a trial that another such key does not: only the signature can.
  ghost predicate KeysPass(trial: SigTrial, sub: seq<Chunk>, sigs: seq<bytes>, keys: seq<bytes>)
  {
    forall i, j, k :: 0 <= i < |sigs| && 0 <= j < |keys| && 0 <= k < |keys| && trial(sub, sigs[i], keys[j]) == Hit
      ==> trial(sub, sigs[i], keys[k]) != Bad
  }

  // Whatever the encodings of the signatures: the loop succeeds exactly when an assignment exists.
  lemma GreedyTrueIffAssignable(trial: SigTrial, sub: seq<Chunk>, sigs: seq<bytes>, keys: seq<bytes>)
    requires |sigs| <= |keys| && KeysPass(trial, sub, sigs, keys)
    ensures GreedyMatch(trial, sub, sigs, keys) == Matched(true) <==> Assignable(trial, sub, sigs, keys)
  {
    if GreedyMatch(trial, sub, sigs, keys) == Matched(true) {
      GreedyIsSound(trial, sub, sigs, keys);
    }
    if Assignable(trial, sub, sigs, keys) {
      var f :| Assigns(trial, sub, sigs, keys, f);
      forall i, k | 0 <= i < |sigs| && 0 <= k < |keys| ensures trial(sub, sigs[i], keys[k]) != Bad {
        assert trial(sub, sigs[i], keys[f[i]]) == Hit;
      }
      GreedyIsComplete(trial, sub, sigs, keys, f);
    }
  }

  // The operation replaces its arguments, both counts and one element more by its answer.
  lemma MultisigRemovesItsArguments(env: Env, trial: SigTrial, script: seq<Chunk>, verify: bool, d: Memory)
    requires MultisigOp(env, trial, script, verify, d).Done?
    ensures var (n, m) := MultisigCounts(env, d.stack).value;
      && n + m + 3 <= |d.stack|
      && MultisigOp(env, trial, script, verify, d).data.alt == d.alt
      && MultisigOp(env, trial, script, verify, d).data.stack
        == d.stack[..|d.stack| - (n + m + 3)]
          + if verify then [] else [Bool(MatchOnStack(trial, SignedPart(script, d.sep), d.stack, n, m) == Matched(true))]
  {
  }
}
