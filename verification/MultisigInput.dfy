// Multisig inputs: signature slots that fill up in any order (transaction/input/multisig.js, multisigscripthash.js).

// Public keys sorted by their bytes, which is the order of their hexadecimal text.
module KeyOrder {
  import opened Bytes

  predicate Leq(a: bytes, b: bytes)
  {
    a == [] || (b != [] && (a[0] < b[0] || (a[0] == b[0] && Leq(a[1..], b[1..]))))
  }

  predicate Ordered(keys: seq<bytes>)
  {
    |keys| <= 1 || (Leq(keys[0], keys[1]) && Ordered(keys[1..]))
  }

  function Insert(k: bytes, keys: seq<bytes>): seq<bytes>
  {
    if keys == [] || Leq(k, keys[0]) then [k] + keys else [keys[0]] + Insert(k, keys[1..])
  }

  function Sort(keys: seq<bytes>): seq<bytes>
  {
    if keys == [] then [] else Insert(keys[0], Sort(keys[1..]))
  }

  lemma {:induction false} LeqTotal(a: bytes, b: bytes)
    ensures Leq(a, b) || Leq(b, a)
    ensures Leq(a, b) && Leq(b, a) ==> a == b
  {
    if a != [] && b != [] && a[0] == b[0] {
      LeqTotal(a[1..], b[1..]);
    }
  }

  lemma {:induction false} LeqTransitive(a: bytes, b: bytes, c: bytes)
    requires Leq(a, b) && Leq(b, c)
    ensures Leq(a, c)
  {
    if a != [] && b != [] && c != [] && a[0] == b[0] == c[0] {
      LeqTransitive(a[1..], b[1..], c[1..]);
    }
  }

  // Keys of one length are ordered as the numbers they stand for.
  lemma {:induction false} LeqIsNumeric(a: bytes, b: bytes)
    requires |a| == |b|
    ensures Leq(a, b) <==> BigEndian(a) <= BigEndian(b)
  {
    if a != [] {
      LeqIsNumeric(a[1..], b[1..]);
      BigEndianFirst(a);
      BigEndianFirst(b);
      FirstDecides(Pow256(|a| - 1), a[0], b[0], BigEndian(a[1..]), BigEndian(b[1..]));
      FirstDecides(Pow256(|a| - 1), b[0], a[0], BigEndian(b[1..]), BigEndian(a[1..]));
    }
  }

  lemma FirstDecides(p: nat, x: nat, y: nat, u: nat, v: nat)
    requires u < p && v < p
    ensures x < y ==> p * x + u < p * y + v
  {
    if x < y {
      MulMonotone(p, x + 1, y);
      assert p * (x + 1) == p * x + p;
    }
  }

  lemma {:induction false} InsertOrdered(k: bytes, keys: seq<bytes>)
    requires Ordered(keys)
    ensures Ordered(Insert(k, keys)) && multiset(Insert(k, keys)) == multiset{k} + multiset(keys)
  {
    if keys != [] {
      assert keys == [keys[0]] + keys[1..];
      if !Leq(k, keys[0]) {
        LeqTotal(k, keys[0]);
        InsertOrdered(k, keys[1..]);
      }
    }
  }

  // Sorting gives an ordered permutation.
  lemma {:induction false} SortOrders(keys: seq<bytes>)
    ensures Ordered(Sort(keys)) && multiset(Sort(keys)) == multiset(keys) && |Sort(keys)| == |keys|
  {
    if keys != [] {
      assert keys == [keys[0]] + keys[1..];
      SortOrders(keys[1..]);
      InsertOrdered(keys[0], Sort(keys[1..]));
      assert |multiset(Sort(keys))| == |Sort(keys)| && |multiset(keys)| == |keys|;
    }
  }

  lemma {:induction false} FirstIsLeast(keys: seq<bytes>, k: bytes)
    requires keys != [] && Ordered(keys) && k in keys
    ensures Leq(keys[0], k)
  {
    if k != keys[0] {
      FirstIsLeast(keys[1..], k);
      LeqTransitive(keys[0], keys[1], k);
    } else {
      LeqTotal(k, k);
    }
  }

  // There is only one ordered permutation.
  lemma {:induction false} OrderedIsUnique(xs: seq<bytes>, ys: seq<bytes>)
    requires Ordered(xs) && Ordered(ys) && multiset(xs) == multiset(ys)
    ensures xs == ys
  {
    assert |multiset(xs)| == |xs| && |multiset(ys)| == |ys|;
    if xs != [] {
      SameFirst(xs, ys);
      BagOfRest(xs);
      BagOfRest(ys);
      OrderedIsUnique(xs[1..], ys[1..]);
      assert xs == [xs[0]] + xs[1..] && ys == [ys[0]] + ys[1..];
    }
  }

  lemma SameFirst(xs: seq<bytes>, ys: seq<bytes>)
    requires xs != [] && ys != [] && Ordered(xs) && Ordered(ys) && multiset(xs) == multiset(ys)
    ensures xs[0] == ys[0]
  {
    assert xs[0] in multiset(ys) && ys[0] in multiset(xs);
    FirstIsLeast(ys, xs[0]);
    FirstIsLeast(xs, ys[0]);
    LeqTotal(xs[0], ys[0]);
  }

  lemma BagOfRest(xs: seq<bytes>)
    requires xs != []
    ensures multiset(xs[1..]) == multiset(xs) - multiset{xs[0]}
  {
    assert xs == [xs[0]] + xs[1..];
  }

  // The order in which keys are given does not matter, and sorting again changes nothing.
  lemma SortIgnoresOrder(xs: seq<bytes>, ys: seq<bytes>)
    requires multiset(xs) == multiset(ys)
    ensures Sort(xs) == Sort(ys) && Sort(Sort(xs)) == Sort(xs)
  {
    SortOrders(xs);
    SortOrders(ys);
    SortOrders(Sort(xs));
    OrderedIsUnique(Sort(xs), Sort(ys));
    OrderedIsUnique(Sort(Sort(xs)), Sort(xs));
  }
}

module MultisigInputs {
  import opened Bytes
  import opened Script
  import opened Opcode
  import opened Crypto
  import opened Transactions
  import opened Sighash
  import opened Machine
  import opened Matching
  import opened MultisigScripts
  import opened KeyOrder
  import Der

  // The output pays to the multisig script itself, or to its hash.
  datatype Kind = Bare | ScriptHash

  datatype TxSig = TxSig(publicKey: bytes, inputIndex: nat, r: nat, s: nat, sigtype: int)

  type Slots = seq<Option<TxSig>>

  function SigBytes(t: TxSig): bytes
  {
    Der.ToTxFormat(Der.Signature(t.r, t.s, t.sigtype % 256))
  }

  // The filled slots in the order of their keys.
  function CreateSignatures(slots: Slots): (sigs: seq<bytes>)
    ensures |sigs| == Count(slots)
  {
    if slots == [] then []
    else
      var last := slots[|slots| - 1];
      CreateSignatures(slots[..|slots| - 1]) + if last.Some? then [SigBytes(last.value)] else []
  }

  function Count(slots: Slots): (n: nat)
    ensures n <= |slots|
  {
    if slots == [] then 0
    else Count(slots[..|slots| - 1]) + if slots[|slots| - 1].Some? then 1 else 0
  }

  function Empty(n: nat): Slots { seq(n, _ => None) }

  // Where the key stands; the last place if it stands in several.
  function IndexOf(keys: seq<bytes>, k: bytes): (i: nat)
    requires k in keys
    ensures i < |keys| && keys[i] == k
  {
    if keys[|keys| - 1] == k then |keys| - 1 else IndexOf(keys[..|keys| - 1], k)
  }

  predicate IsValidSignature(crypto: Crypto, signed: seq<Chunk>, tx: Tx, sig: TxSig)
  {
    Verifies(crypto, tx, sig.r, sig.s, sig.sigtype, sig.publicKey, sig.inputIndex, signed)
  }

  // The slots after a signature is offered; None where the offer is refused with an exception.
  function AddTo(crypto: Crypto, keys: seq<bytes>, m: nat, signed: seq<Chunk>, slots: Slots, tx: Tx, sig: TxSig): Option<Slots>
    requires |slots| == |keys|
  {
    if Count(slots) == m || sig.publicKey !in keys || !IsValidSignature(crypto, signed, tx, sig) then None
    else Some(slots[IndexOf(keys, sig.publicKey) := Some(sig)])
  }

  predicate BuildableOut(m: nat, keys: seq<bytes>) { m <= |keys| <= MAX_KEYS && AllPushable(keys) }

  function OutScript(kind: Kind, crypto: Crypto, m: nat, keys: seq<bytes>): seq<Chunk>
    requires BuildableOut(m, keys)
    requires |crypto.sha256ripemd160(ToBuffer(MultisigOut(m, keys)))| < MAX_PUSH
  {
    if kind.Bare? then MultisigOut(m, keys) else ScriptHashOut(crypto, MultisigOut(m, keys))
  }

  function InScript(kind: Kind, sigs: seq<bytes>, signed: seq<Chunk>): seq<Chunk>
    requires AllPushable(sigs) && |ToBuffer(signed)| < MAX_PUSH
  {
    if kind.Bare? then MultisigIn(sigs) else P2SHMultisigIn(sigs, signed)
  }

  // ----- counting -----

  lemma {:induction false} CountSet(slots: Slots, i: nat, sig: TxSig)
    requires i < |slots|
    ensures Count(slots[i := Some(sig)]) == Count(slots) + if slots[i].Some? then 0 else 1
  {
    var after, n := slots[i := Some(sig)], |slots| - 1;
    if i < n {
      CountSet(slots[..n], i, sig);
      assert after[..n] == slots[..n][i := Some(sig)];
    } else {
      assert after[..n] == slots[..n];
    }
  }

  lemma {:induction false} CountEmpty(n: nat)
    ensures Count(Empty(n)) == 0
  {
    if n > 0 {
      assert Empty(n)[..n - 1] == Empty(n - 1);
      CountEmpty(n - 1);
    }
  }

  // The keys of the filled slots, in order.
  function Positions(slots: Slots): seq<nat>
  {
    if slots == [] then []
    else Positions(slots[..|slots| - 1]) + if slots[|slots| - 1].Some? then [(|slots| - 1) as nat] else []
  }

  predicate Holds(slots: Slots, i: nat, sig: bytes)
  {
    i < |slots| && slots[i].Some? && SigBytes(slots[i].value) == sig
  }

  lemma {:induction false} PositionsIncrease(slots: Slots)
    ensures |Positions(slots)| == Count(slots)
    ensures forall j :: 0 <= j < |Positions(slots)| ==> Positions(slots)[j] < |slots|
    ensures forall j, k :: 0 <= j < k < |Positions(slots)| ==> Positions(slots)[j] < Positions(slots)[k]
    ensures forall j :: 0 <= j < |Positions(slots)| ==> Holds(slots, Positions(slots)[j], CreateSignatures(slots)[j])
  {
    if slots != [] {
      PositionsIncrease(slots[..|slots| - 1]);
    }
  }

  // ----- what the slots hold -----

  // A transaction that signs the same as base: equal to it but for readable input scripts.
  predicate Comparable(tx: Tx, base: Tx)
  {
    && TxFits(tx) && MarkerConsistent(tx) && AllCopyable(tx)
    && SameUpToScripts(tx, base)
  }

  lemma SameDigest(crypto: Crypto, a: Tx, b: Tx, base: Tx, r: nat, s: nat, hashType: int, key: bytes, nin: nat, sub: seq<Chunk>)
    requires Comparable(a, base) && Comparable(b, base)
    ensures Verifies(crypto, a, r, s, hashType, key, nin, sub) == Verifies(crypto, b, r, s, hashType, key, nin, sub)
  {
    InputScriptsDoNotMatter(a, b, hashType, nin, sub);
  }

  // A hash type that fits the one byte a script carries, and the form the flags ask of signatures.
  predicate Acceptable(flags: Flags, sig: TxSig)
  {
    && 0 < sig.sigtype < 256
    && (flags.lowS ==> sig.s <= HALF_ORDER)
    && (flags.strictEnc && !flags.lowS ==> HasDefinedHashType(Der.Signature(sig.r, sig.s, sig.sigtype)))
  }

  ghost predicate SlotOk(v: Verification, key: bytes, sig: TxSig)
  {
    sig.publicKey == key && v(sig.r, sig.s, sig.sigtype, key)
  }

  ghost predicate SlotsOk(v: Verification, keys: seq<bytes>, slots: Slots)
  {
    |slots| == |keys| && forall i :: 0 <= i < |slots| && slots[i].Some? ==> SlotOk(v, keys[i], slots[i].value)
  }

  ghost predicate SlotsAcceptable(flags: Flags, slots: Slots)
  {
    forall i :: 0 <= i < |slots| && slots[i].Some? ==> Acceptable(flags, slots[i].value)
  }

  // Everything fixed for one input: the environment and the script it signs, with what they decide.
  ghost predicate Setting(env: Env, signed: seq<Chunk>, v: Verification, trial: SigTrial)
  {
    Sound(env.crypto) && Decides(v, env, signed) && Judges(trial, env)
  }

  lemma SoundSignatures(env: Env, signed: seq<Chunk>, v: Verification, r: nat, s: nat, hashType: int, key: bytes)
    requires Sound(env.crypto) && Decides(v, env, signed) && v(r, s, hashType, key)
    ensures 0 < r < Pow256(32) && 0 < s < Pow256(32)
  {
    assert Verifies(env.crypto, env.tx, r, s, hashType, key, env.nin, signed);
  }

  lemma ReadableEncodingOk(b: bytes, sig: Der.Signature, flags: Flags)
    requires Der.IsTxDER(b) && Der.FromTxFormat(b) == Some(sig)
    requires (flags.lowS ==> HasLowS(sig)) && (flags.strictEnc && !flags.lowS ==> HasDefinedHashType(sig))
    ensures b != [] && b[0] == 0x30 && SignatureEncodingOk(b, flags)
  {
  }

  lemma ReadableHits(env: Env, signed: seq<Chunk>, v: Verification, trial: SigTrial, key: bytes, b: bytes, sig: Der.Signature)
    requires Setting(env, signed, v, trial)
    requires Der.FromTxFormat(b) == Some(sig) && SignatureEncodingOk(b, env.flags) && env.crypto.keyIsValid(key)
    requires v(sig.r, sig.s, sig.hashType, key)
    ensures trial(signed, b, key) == Hit
  {
    assert Verifies(env.crypto, env.tx, sig.r, sig.s, sig.hashType, key, env.nin, signed);
    assert Try(env, signed, b, key) == Hit;
  }

  // A signature whose numbers fit; any signature that verifies does.
  predicate Writable(sig: TxSig) { sig.r < Pow256(32) && sig.s < Pow256(32) }

  lemma SlotIsShaped(env: Env, signed: seq<Chunk>, v: Verification, key: bytes, sig: TxSig)
    requires Sound(env.crypto) && Decides(v, env, signed) && SlotOk(v, key, sig)
    ensures 9 <= |SigBytes(sig)| <= 73 && SigBytes(sig)[0] == 0x30
  {
    SoundSignatures(env, signed, v, sig.r, sig.s, sig.sigtype, key);
    WrittenIsShaped(sig);
  }

  lemma WrittenIsShaped(sig: TxSig)
    requires Writable(sig)
    ensures 9 <= |SigBytes(sig)| <= 73 && SigBytes(sig)[0] == 0x30
  {
    Der.WrittenSignatureIsCanonical(Der.Signature(sig.r, sig.s, sig.sigtype % 256));
  }

  lemma SlotSignature(env: Env, signed: seq<Chunk>, v: Verification, trial: SigTrial, key: bytes, sig: TxSig)
    requires Setting(env, signed, v, trial) && SlotOk(v, key, sig) && Acceptable(env.flags, sig) && env.crypto.keyIsValid(key)
    ensures trial(signed, SigBytes(sig), key) == Hit
  {
    var written := Der.Signature(sig.r, sig.s, sig.sigtype % 256);
    SoundSignatures(env, signed, v, sig.r, sig.s, sig.sigtype, key);
    assert written.hashType == sig.sigtype;
    Der.WrittenSignatureIsCanonical(written);
    ReadableEncodingOk(SigBytes(sig), written, env.flags);
    ReadableHits(env, signed, v, trial, key, SigBytes(sig), written);
  }

  lemma SlotsPresentable(env: Env, signed: seq<Chunk>, v: Verification, keys: seq<bytes>, slots: Slots)
    requires Sound(env.crypto) && Decides(v, env, signed) && SlotsOk(v, keys, slots) && ValidKeys(env.crypto, keys)
    ensures Presentable(env, CreateSignatures(slots), keys)
  {
    var sigs, f := CreateSignatures(slots), Positions(slots);
    PositionsIncrease(slots);
    forall j | 0 <= j < |sigs| ensures 9 <= |sigs[j]| <= 73 && sigs[j][0] == 0x30 {
      assert Holds(slots, f[j], sigs[j]);
      SlotIsShaped(env, signed, v, keys[f[j]], slots[f[j]].value);
    }
  }

  // Signatures whose type fits a byte can be assigned to the keys, by the slots they stand in.
  lemma SlotsAssign(env: Env, signed: seq<Chunk>, v: Verification, trial: SigTrial, keys: seq<bytes>, slots: Slots)
    requires Setting(env, signed, v, trial) && SlotsOk(v, keys, slots) && SlotsAcceptable(env.flags, slots)
    requires ValidKeys(env.crypto, keys)
    ensures Assignable(trial, signed, CreateSignatures(slots), keys)
  {
    var sigs, f := CreateSignatures(slots), Positions(slots);
    PositionsIncrease(slots);
    forall j | 0 <= j < |f| ensures trial(signed, sigs[j], keys[f[j]]) == Hit {
      assert Holds(slots, f[j], sigs[j]) && keys[f[j]] in keys;
      SlotSignature(env, signed, v, trial, keys[f[j]], slots[f[j]].value);
    }
    assert Assigns(trial, signed, sigs, keys, f);
  }

  // ----- runs -----

  // Signatures offered on some state of the transaction, and slots cleared, in any order.
  datatype Event = Offered(tx: Tx, sig: TxSig) | Cleared

  // A refused offer leaves the slots as they were.
  function Apply(crypto: Crypto, m: nat, keys: seq<bytes>, slots: Slots, ev: Event): (r: Slots)
    requires BuildableOut(m, keys) && |slots| == |keys|
    ensures |r| == |keys|
  {
    match ev
    case Cleared => Empty(|keys|)
    case Offered(tx, sig) =>
      var added := AddTo(crypto, keys, m, MultisigOut(m, keys), slots, tx, sig);
      if added.None? then slots else added.value
  }

  function After(crypto: Crypto, m: nat, keys: seq<bytes>, evs: seq<Event>): (r: Slots)
    requires BuildableOut(m, keys)
    ensures |r| == |keys|
  {
    if evs == [] then Empty(|keys|)
    else Apply(crypto, m, keys, After(crypto, m, keys, evs[..|evs| - 1]), evs[|evs| - 1])
  }

  // Offers made on the transaction up to its input scripts, for the input under verification.
  ghost predicate Offers(env: Env, base: Tx, evs: seq<Event>)
  {
    forall ev :: ev in evs && ev.Offered? ==>
      Comparable(ev.tx, base) && ev.sig.inputIndex == env.nin
  }

  ghost predicate OffersAcceptable(flags: Flags, evs: seq<Event>)
  {
    forall ev :: ev in evs && ev.Offered? ==> Acceptable(flags, ev.sig)
  }

  lemma AddKeeps(env: Env, base: Tx, v: Verification, m: nat, keys: seq<bytes>, slots: Slots, tx: Tx, sig: TxSig)
    requires m <= |keys| <= MAX_KEYS && AllPushable(keys)
    requires Comparable(env.tx, base) && Comparable(tx, base) && sig.inputIndex == env.nin
    requires Decides(v, env, MultisigOut(m, keys)) && SlotsOk(v, keys, slots) && Count(slots) <= m
    ensures var r := Apply(env.crypto, m, keys, slots, Offered(tx, sig)); SlotsOk(v, keys, r) && Count(r) <= m
  {
    var signed := MultisigOut(m, keys);
    if AddTo(env.crypto, keys, m, signed, slots, tx, sig).Some? {
      CountSet(slots, IndexOf(keys, sig.publicKey), sig);
      OfferDecided(env, base, v, signed, tx, sig);
    }
  }

  lemma OfferDecided(env: Env, base: Tx, v: Verification, signed: seq<Chunk>, tx: Tx, sig: TxSig)
    requires Comparable(env.tx, base) && Comparable(tx, base) && sig.inputIndex == env.nin && Decides(v, env, signed)
    requires IsValidSignature(env.crypto, signed, tx, sig)
    ensures v(sig.r, sig.s, sig.sigtype, sig.publicKey)
  {
    SameDigest(env.crypto, tx, env.tx, base, sig.r, sig.s, sig.sigtype, sig.publicKey, env.nin, signed);
    assert Verifies(env.crypto, env.tx, sig.r, sig.s, sig.sigtype, sig.publicKey, env.nin, signed);
  }

  // Every run keeps: no more signatures than the threshold, each in the slot of its key, each valid.
  lemma {:induction false} RunKeepsSlots(env: Env, base: Tx, v: Verification, m: nat, keys: seq<bytes>, evs: seq<Event>)
    requires m <= |keys| <= MAX_KEYS && AllPushable(keys)
    requires Comparable(env.tx, base) && Offers(env, base, evs) && Decides(v, env, MultisigOut(m, keys))
    ensures var slots := After(env.crypto, m, keys, evs); SlotsOk(v, keys, slots) && Count(slots) <= m
  {
    CountEmpty(|keys|);
    if evs != [] {
      var before, last := evs[..|evs| - 1], evs[|evs| - 1];
      RunKeepsSlots(env, base, v, m, keys, before);
      if last.Offered? {
        assert last in evs;
        AddKeeps(env, base, v, m, keys, After(env.crypto, m, keys, before), last.tx, last.sig);
      }
    }
  }

  // Signatures offered for as many different keys of the input.
  ghost predicate OffersApart(keys: seq<bytes>, evs: seq<Event>)
  {
    && (forall i :: 0 <= i < |evs| ==> evs[i].Offered? && evs[i].sig.publicKey in keys)
    && (forall i, j :: 0 <= i < j < |evs| && evs[i].Offered? && evs[j].Offered? ==>
          evs[i].sig.publicKey != evs[j].sig.publicKey)
  }

  ghost predicate AllValid(crypto: Crypto, signed: seq<Chunk>, evs: seq<Event>)
  {
    forall i :: 0 <= i < |evs| ==> evs[i].Offered? && IsValidSignature(crypto, signed, evs[i].tx, evs[i].sig)
  }

  ghost predicate FilledBy(slot: Option<TxSig>, key: bytes, evs: seq<Event>)
  {
    slot.Some? ==> exists j :: 0 <= j < |evs| && evs[j].Offered? && evs[j].sig == slot.value && evs[j].sig.publicKey == key
  }

  ghost predicate AllFilledBy(slots: Slots, keys: seq<bytes>, evs: seq<Event>)
  {
    |slots| == |keys| && forall i :: 0 <= i < |slots| ==> FilledBy(slots[i], keys[i], evs)
  }

  // Each signature in the slot of its key.
  ghost function Placed(keys: seq<bytes>, evs: seq<Event>): (r: Slots)
    requires OffersApart(keys, evs)
    ensures |r| == |keys|
  {
    if evs == [] then Empty(|keys|)
    else
      var last := evs[|evs| - 1];
      Placed(keys, evs[..|evs| - 1])[IndexOf(keys, last.sig.publicKey) := Some(last.sig)]
  }

  lemma {:induction false} PlacedFills(keys: seq<bytes>, evs: seq<Event>)
    requires OffersApart(keys, evs)
    ensures Count(Placed(keys, evs)) == |evs| && AllFilledBy(Placed(keys, evs), keys, evs)
  {
    if evs == [] {
      CountEmpty(|keys|);
    } else {
      var before, last := evs[..|evs| - 1], evs[|evs| - 1];
      PlacedFills(keys, before);
      assert before + [last] == evs;
      FillOne(keys, Placed(keys, before), before, last);
    }
  }

  // Which signatures an input takes for valid.
  ghost predicate Validates(valid: (Tx, TxSig) -> bool, crypto: Crypto, signed: seq<Chunk>)
  {
    forall tx: Tx, sig: TxSig {:trigger IsValidSignature(crypto, signed, tx, sig)} ::
      valid(tx, sig) == IsValidSignature(crypto, signed, tx, sig)
  }

  lemma {:induction false} OffersAreTaken(crypto: Crypto, m: nat, keys: seq<bytes>, evs: seq<Event>, valid: (Tx, TxSig) -> bool)
    requires BuildableOut(m, keys) && |evs| <= m && OffersApart(keys, evs) && Validates(valid, crypto, MultisigOut(m, keys))
    requires forall i :: 0 <= i < |evs| ==> evs[i].Offered? && valid(evs[i].tx, evs[i].sig)
    ensures After(crypto, m, keys, evs) == Placed(keys, evs)
  {
    if evs != [] {
      var before, last := evs[..|evs| - 1], evs[|evs| - 1];
      OffersAreTaken(crypto, m, keys, before, valid);
      PlacedFills(keys, before);
      assert valid(last.tx, last.sig) == IsValidSignature(crypto, MultisigOut(m, keys), last.tx, last.sig);
      ValidIsTaken(crypto, m, keys, Placed(keys, before), last.tx, last.sig);
      AfterLast(crypto, m, keys, evs);
    }
  }

  lemma AfterLast(crypto: Crypto, m: nat, keys: seq<bytes>, evs: seq<Event>)
    requires BuildableOut(m, keys) && evs != []
    ensures After(crypto, m, keys, evs) == Apply(crypto, m, keys, After(crypto, m, keys, evs[..|evs| - 1]), evs[|evs| - 1])
  {
  }

  // Valid ones are taken, in any order, until the threshold is reached: each fills a slot of its own.
  lemma OffersFill(crypto: Crypto, m: nat, keys: seq<bytes>, evs: seq<Event>)
    requires BuildableOut(m, keys) && |evs| <= m && OffersApart(keys, evs) && AllValid(crypto, MultisigOut(m, keys), evs)
    ensures Count(After(crypto, m, keys, evs)) == |evs| && AllFilledBy(After(crypto, m, keys, evs), keys, evs)
  {
    var signed := MultisigOut(m, keys);
    PlacedFills(keys, evs);
    OffersAreTaken(crypto, m, keys, evs, (tx: Tx, sig: TxSig) => IsValidSignature(crypto, signed, tx, sig));
  }

  lemma ValidIsTaken(crypto: Crypto, m: nat, keys: seq<bytes>, slots: Slots, tx: Tx, sig: TxSig)
    requires BuildableOut(m, keys) && |slots| == |keys| && Count(slots) != m && sig.publicKey in keys
    requires IsValidSignature(crypto, MultisigOut(m, keys), tx, sig)
    ensures Apply(crypto, m, keys, slots, Offered(tx, sig)) == slots[IndexOf(keys, sig.publicKey) := Some(sig)]
  {
  }

  lemma FillOne(keys: seq<bytes>, slots: Slots, evs: seq<Event>, last: Event)
    requires AllFilledBy(slots, keys, evs) && last.Offered? && last.sig.publicKey in keys
    requires forall j :: 0 <= j < |evs| && evs[j].Offered? ==> evs[j].sig.publicKey != last.sig.publicKey
    ensures var r := slots[IndexOf(keys, last.sig.publicKey) := Some(last.sig)];
      Count(r) == Count(slots) + 1 && AllFilledBy(r, keys, evs + [last])
  {
    var at := IndexOf(keys, last.sig.publicKey);
    var r := slots[at := Some(last.sig)];
    CountSet(slots, at, last.sig);
    assert FilledBy(slots[at], keys[at], evs);
    forall i | 0 <= i < |r| ensures FilledBy(r[i], keys[i], evs + [last]) {
      StillFilled(slots[i], keys[i], evs, last);
      assert (evs + [last])[|evs|] == last;
    }
  }

  lemma StillFilled(slot: Option<TxSig>, key: bytes, evs: seq<Event>, last: Event)
    requires FilledBy(slot, key, evs)
    ensures FilledBy(slot, key, evs + [last])
  {
    if slot.Some? {
      var j :| 0 <= j < |evs| && evs[j].Offered? && evs[j].sig == slot.value && evs[j].sig.publicKey == key;
      assert (evs + [last])[j] == evs[j];
    }
  }

  // While the input is not full, a valid signature takes the last place of its key, over an earlier one if need be; clearing
  // leaves nothing.
  lemma OfferIsTaken(crypto: Crypto, m: nat, keys: seq<bytes>, slots: Slots, tx: Tx, sig: TxSig, i: nat)
    requires BuildableOut(m, keys) && |slots| == |keys| && Count(slots) != m
    requires IsValidSignature(crypto, MultisigOut(m, keys), tx, sig)
    requires i < |keys| && keys[i] == sig.publicKey && forall j :: i < j < |keys| ==> keys[j] != sig.publicKey
    ensures Apply(crypto, m, keys, slots, Offered(tx, sig)) == slots[i := Some(sig)]
    ensures Count(Apply(crypto, m, keys, slots, Cleared)) == 0
  {
    IndexIsLast(keys, i);
    ValidIsTaken(crypto, m, keys, slots, tx, sig);
    CountEmpty(|keys|);
  }

  lemma {:induction false} IndexIsLast(keys: seq<bytes>, i: nat)
    requires i < |keys| && forall j :: i < j < |keys| ==> keys[j] != keys[i]
    ensures IndexOf(keys, keys[i]) == i
  {
    if i < |keys| - 1 {
      IndexIsLast(keys[..|keys| - 1], i);
    }
  }

  // Slots hold offered signatures, so what all offers have in common the slots have too.
  lemma {:induction false} RunKeepsAcceptable(crypto: Crypto, flags: Flags, m: nat, keys: seq<bytes>, evs: seq<Event>)
    requires BuildableOut(m, keys) && OffersAcceptable(flags, evs)
    ensures SlotsAcceptable(flags, After(crypto, m, keys, evs))
  {
    if evs != [] {
      var before, last := evs[..|evs| - 1], evs[|evs| - 1];
      RunKeepsAcceptable(crypto, flags, m, keys, before);
      assert last in evs;
    }
  }

  predicate ValidKeys(crypto: Crypto, keys: seq<bytes>)
  {
    |keys| <= MAX_KEYS && forall k :: k in keys ==> KeyBytes(k) && crypto.keyIsValid(k)
  }

  // An input verifies exactly when the signatures its slots hold are enough.
  lemma SlotsVerify(kind: Kind, env: Env, v: Verification, m: nat, keys: seq<bytes>, slots: Slots)
    requires 1 <= m <= |keys| && ValidKeys(env.crypto, keys) && AllPushable(keys)
    requires Sound(env.crypto) && Decides(v, env, MultisigOut(m, keys))
    requires SlotsOk(v, keys, slots) && Count(slots) <= m
    requires |env.crypto.sha256ripemd160(ToBuffer(MultisigOut(m, keys)))| == 20
    requires |ToBuffer(MultisigOut(m, keys))| <= if kind.ScriptHash? then MAX_ELEMENT else MAX_SCRIPT
    ensures AllPushable(CreateSignatures(slots))
    ensures VerifyScript(env, InScript(kind, CreateSignatures(slots), MultisigOut(m, keys)), OutScript(kind, env.crypto, m, keys))
      == VerdictOf(Enough(Trials(env), m, keys, CreateSignatures(slots)) || (kind.ScriptHash? && !env.flags.p2sh))
  {
    var sigs := CreateSignatures(slots);
    SlotsPresentable(env, MultisigOut(m, keys), v, keys, slots);
    PresentableIsPushable(env, sigs, keys);
    if kind.Bare? {
      BareMultisig(env, m, keys, sigs);
    } else {
      ScriptHashMultisig(env, m, keys, sigs);
    }
  }

  // ----- the signed transaction -----

  function Install(tx: Tx, nin: nat, script: bytes): Tx
    requires nin < |tx.inputs|
  {
    tx.(inputs := tx.inputs[nin := tx.inputs[nin].(script := script)])
  }

  lemma InstallIsComparable(base: Tx, nin: nat, script: bytes)
    requires Comparable(base, base) && nin < |base.inputs| && FromBuffer(script).Some? && ShortBytes(script)
    ensures Comparable(Install(base, nin, script), base)
  {
    var tx := Install(base, nin, script);
    forall i | i in tx.inputs ensures TxInFits(i) && Copyable(i) {
      var k :| 0 <= k < |tx.inputs| && tx.inputs[k] == i;
      assert base.inputs[k] in base.inputs;
    }
  }

  lemma InScriptReads(kind: Kind, env: Env, m: nat, keys: seq<bytes>, sigs: seq<bytes>)
    requires 1 <= m <= |keys| && Presentable(env, sigs, keys) && AllPushable(keys) && AllPushable(sigs) && |sigs| <= MAX_KEYS
    requires |ToBuffer(MultisigOut(m, keys))| <= MAX_SCRIPT
    ensures var b := ToBuffer(InScript(kind, sigs, MultisigOut(m, keys))); FromBuffer(b).Some? && ShortBytes(b)
  {
    var script := InScript(kind, sigs, MultisigOut(m, keys));
    TwoChunks(MultisigOut(m, keys));
    InScriptChunks(kind, env, keys, sigs, MultisigOut(m, keys));
    WholeIsParsed(script);
    ParseIffPrint(ToBuffer(script), script);
    ToBufferBound(script, MAX_SCRIPT + 5);
  }

  lemma InScriptChunks(kind: Kind, env: Env, keys: seq<bytes>, sigs: seq<bytes>, redeem: seq<Chunk>)
    requires Presentable(env, sigs, keys) && AllPushable(sigs) && 0 < |ToBuffer(redeem)| <= MAX_SCRIPT
    ensures var script := InScript(kind, sigs, redeem);
      |script| <= |sigs| + 2 && forall i :: 0 <= i < |script| ==> Whole(script[i]) && |ChunkBytes(script[i])| <= MAX_SCRIPT + 5
  {
    var script := InScript(kind, sigs, redeem);
    PushOfIsWhole(ToBuffer(redeem));
    forall i | 0 <= i < |script| ensures Whole(script[i]) && |ChunkBytes(script[i])| <= MAX_SCRIPT + 5 {
      if 0 < i <= |sigs| {
        assert script[i] == PushOf(sigs[i - 1]) && sigs[i - 1] in sigs;
        PushOfIsWhole(sigs[i - 1]);
      }
    }
  }

  lemma VerificationOf(env: Env, signed: seq<Chunk>) returns (v: Verification)
    ensures Decides(v, env, signed)
  {
    v := (r: nat, s: nat, hashType: int, key: bytes) => Verifies(env.crypto, env.tx, r, s, hashType, key, env.nin, signed);
  }

  // What is fixed before any signature is offered: sound crypto, usable keys, a transaction that can be digested, and a
  // redeem script that fits an element.
  ghost predicate Spendable(kind: Kind, crypto: Crypto, base: Tx, nin: nat, m: nat, keys: seq<bytes>)
  {
    && Sound(crypto) && 1 <= m <= |keys| && ValidKeys(crypto, keys) && AllPushable(keys)
    && Comparable(base, base) && nin < |base.inputs|
    && (kind.ScriptHash? ==> |ToBuffer(MultisigOut(m, keys))| <= MAX_ELEMENT)
  }

  lemma SpendableFits(kind: Kind, crypto: Crypto, base: Tx, nin: nat, m: nat, keys: seq<bytes>)
    requires Spendable(kind, crypto, base, nin, m, keys)
    ensures |crypto.sha256ripemd160(ToBuffer(MultisigOut(m, keys)))| == 20 && |ToBuffer(MultisigOut(m, keys))| <= MAX_SCRIPT
  {
    OutIsShort(m, keys);
  }

  // The environment in which the script of the slots stands in the transaction.
  ghost function Installed(kind: Kind, crypto: Crypto, flags: Flags, base: Tx, nin: nat, m: nat, keys: seq<bytes>, slots: Slots): Env
    requires Spendable(kind, crypto, base, nin, m, keys) && AllPushable(CreateSignatures(slots))
  {
    SpendableFits(kind, crypto, base, nin, m, keys);
    Env(crypto, flags, Install(base, nin, ToBuffer(InScript(kind, CreateSignatures(slots), MultisigOut(m, keys)))), nin)
  }

  // A fresh verification of the script of the slots, installed in the transaction, against the output.
  ghost function Spent(kind: Kind, crypto: Crypto, flags: Flags, base: Tx, nin: nat, m: nat, keys: seq<bytes>, slots: Slots): Verdict
    requires Spendable(kind, crypto, base, nin, m, keys) && AllPushable(CreateSignatures(slots))
  {
    SpendableFits(kind, crypto, base, nin, m, keys);
    VerifyScript(Installed(kind, crypto, flags, base, nin, m, keys, slots),
                 InScript(kind, CreateSignatures(slots), MultisigOut(m, keys)), OutScript(kind, crypto, m, keys))
  }

  lemma RunIsPresentable(kind: Kind, crypto: Crypto, flags: Flags, base: Tx, nin: nat, m: nat, keys: seq<bytes>, evs: seq<Event>)
    requires Spendable(kind, crypto, base, nin, m, keys) && Offers(Env(crypto, flags, base, nin), base, evs)
    ensures var sigs := CreateSignatures(After(crypto, m, keys, evs));
      AllPushable(sigs) && Presentable(Env(crypto, flags, base, nin), sigs, keys)
  {
    var env := Env(crypto, flags, base, nin);
    var v := VerificationOf(env, MultisigOut(m, keys));
    RunKeepsSlots(env, base, v, m, keys, evs);
    SlotsPresentable(env, MultisigOut(m, keys), v, keys, After(crypto, m, keys, evs));
    PresentableIsPushable(env, CreateSignatures(After(crypto, m, keys, evs)), keys);
  }

  lemma InstalledIsComparable(kind: Kind, crypto: Crypto, flags: Flags, base: Tx, nin: nat, m: nat, keys: seq<bytes>, slots: Slots)
    requires Spendable(kind, crypto, base, nin, m, keys) && AllPushable(CreateSignatures(slots)) && Count(slots) <= m
    requires Presentable(Env(crypto, flags, base, nin), CreateSignatures(slots), keys)
    ensures Comparable(Installed(kind, crypto, flags, base, nin, m, keys, slots).tx, base)
  {
    var sigs := CreateSignatures(slots);
    SpendableFits(kind, crypto, base, nin, m, keys);
    InScriptReads(kind, Env(crypto, flags, base, nin), m, keys, sigs);
    InstallIsComparable(base, nin, ToBuffer(InScript(kind, sigs, MultisigOut(m, keys))));
  }

  lemma InstalledSlots(kind: Kind, crypto: Crypto, flags: Flags, base: Tx, nin: nat, m: nat, keys: seq<bytes>, evs: seq<Event>)
    returns (v: Verification)
    requires Spendable(kind, crypto, base, nin, m, keys) && Offers(Env(crypto, flags, base, nin), base, evs)
    ensures var slots := After(crypto, m, keys, evs);
      && AllPushable(CreateSignatures(slots)) && Count(slots) <= m && SlotsOk(v, keys, slots)
      && var env := Installed(kind, crypto, flags, base, nin, m, keys, slots);
        Comparable(env.tx, base) && Decides(v, env, MultisigOut(m, keys))
  {
    var before, slots := Env(crypto, flags, base, nin), After(crypto, m, keys, evs);
    RunIsPresentable(kind, crypto, flags, base, nin, m, keys, evs);
    var v0 := VerificationOf(before, MultisigOut(m, keys));
    RunKeepsSlots(before, base, v0, m, keys, evs);
    InstalledIsComparable(kind, crypto, flags, base, nin, m, keys, slots);
    var env := Installed(kind, crypto, flags, base, nin, m, keys, slots);
    v := VerificationOf(env, MultisigOut(m, keys));
    RunKeepsSlots(env, base, v, m, keys, evs);
  }

  // End to end, for every signature that can be offered. Signatures are offered to the slots of an input in any order,
  // some refused, slots cleared on the way; the script of what the slots then hold is installed in the transaction. A
  // fresh verification is true exactly when the input is fully signed and the signatures, as the script carries them,
  // can be given keys in order (and whenever nobody looks behind a script hash).
  lemma VerifiesIffEnough(kind: Kind, crypto: Crypto, flags: Flags, base: Tx, nin: nat, m: nat, keys: seq<bytes>, evs: seq<Event>)
    requires Spendable(kind, crypto, base, nin, m, keys) && Offers(Env(crypto, flags, base, nin), base, evs)
    ensures var slots := After(crypto, m, keys, evs);
      && AllPushable(CreateSignatures(slots))
      && var env := Installed(kind, crypto, flags, base, nin, m, keys, slots);
        Spent(kind, crypto, flags, base, nin, m, keys, slots) == VerdictOf(
          || (Count(slots) == m && Assignable(Trials(env), MultisigOut(m, keys), CreateSignatures(slots), keys))
          || (kind.ScriptHash? && !flags.p2sh))
  {
    var slots := After(crypto, m, keys, evs);
    var v := InstalledSlots(kind, crypto, flags, base, nin, m, keys, evs);
    SpentIffEnough(kind, crypto, flags, base, nin, m, keys, slots, v);
  }

  lemma SpentIffEnough(kind: Kind, crypto: Crypto, flags: Flags, base: Tx, nin: nat, m: nat, keys: seq<bytes>, slots: Slots,
                       v: Verification)
    requires Spendable(kind, crypto, base, nin, m, keys) && AllPushable(CreateSignatures(slots)) && Count(slots) <= m
    requires Decides(v, Installed(kind, crypto, flags, base, nin, m, keys, slots), MultisigOut(m, keys)) && SlotsOk(v, keys, slots)
    ensures Spent(kind, crypto, flags, base, nin, m, keys, slots) == VerdictOf(
      || Enough(Trials(Installed(kind, crypto, flags, base, nin, m, keys, slots)), m, keys, CreateSignatures(slots))
      || (kind.ScriptHash? && !flags.p2sh))
  {
    SpendableFits(kind, crypto, base, nin, m, keys);
    SlotsVerify(kind, Installed(kind, crypto, flags, base, nin, m, keys, slots), v, m, keys, slots);
  }

  // So, where every type offered fits the byte the script carries and every signature has the form the flags ask for,
  // verification is true exactly when the input is fully signed.
  lemma FullySignedIffVerifies(kind: Kind, crypto: Crypto, flags: Flags, base: Tx, nin: nat, m: nat, keys: seq<bytes>, evs: seq<Event>)
    requires Spendable(kind, crypto, base, nin, m, keys) && Offers(Env(crypto, flags, base, nin), base, evs)
    requires OffersAcceptable(flags, evs)
    ensures var slots := After(crypto, m, keys, evs);
      && AllPushable(CreateSignatures(slots))
      && Spent(kind, crypto, flags, base, nin, m, keys, slots) == VerdictOf(Count(slots) == m || (kind.ScriptHash? && !flags.p2sh))
  {
    var slots := After(crypto, m, keys, evs);
    var v := InstalledSlots(kind, crypto, flags, base, nin, m, keys, evs);
    var env := Installed(kind, crypto, flags, base, nin, m, keys, slots);
    RunKeepsAcceptable(crypto, flags, m, keys, evs);
    TrialsJudge(env);
    SlotsAssign(env, MultisigOut(m, keys), v, Trials(env), keys, slots);
    VerifiesIffEnough(kind, crypto, flags, base, nin, m, keys, evs);
  }

  // ----- a type that does not fit its byte -----

  // One key, one signature that verifies under its type and not under the byte of it the script carries, as a type of 257
  // may: the input is fully signed, and does not verify.
  lemma WideTypeFails(crypto: Crypto, flags: Flags, base: Tx, key: bytes, sig: TxSig, v: Verification)
    requires Spendable(Bare, crypto, base, 0, 1, [key]) && Decides(v, Env(crypto, flags, base, 0), MultisigOut(1, [key]))
    requires SlotOk(v, key, sig) && sig.inputIndex == 0 && !v(sig.r, sig.s, sig.sigtype % 256, key)
    ensures var slots := After(crypto, 1, [key], [Offered(base, sig)]);
      && Count(slots) == 1 && AllPushable(CreateSignatures(slots))
      && Spent(Bare, crypto, flags, base, 0, 1, [key], slots) == False
  {
    SoundSignatures(Env(crypto, flags, base, 0), MultisigOut(1, [key]), v, sig.r, sig.s, sig.sigtype, key);
    OneOffer(Env(crypto, flags, base, 0), v, key, sig);
    WideSlotFails(crypto, flags, base, key, sig, v);
  }

  lemma WideSlotFails(crypto: Crypto, flags: Flags, base: Tx, key: bytes, sig: TxSig, v: Verification)
    requires Spendable(Bare, crypto, base, 0, 1, [key]) && Decides(v, Env(crypto, flags, base, 0), MultisigOut(1, [key]))
    requires SlotOk(v, key, sig) && !v(sig.r, sig.s, sig.sigtype % 256, key) && Writable(sig)
    ensures AllPushable(CreateSignatures([Some(sig)]))
    ensures Spent(Bare, crypto, flags, base, 0, 1, [key], [Some(sig)]) == False
  {
    var before, slots: Slots := Env(crypto, flags, base, 0), [Some(sig)];
    OneSlot(sig);
    PushableAndComparable(Bare, crypto, flags, base, 0, 1, [key], slots, v);
    var env := Installed(Bare, crypto, flags, base, 0, 1, [key], slots);
    var w := NoneAssigned(before, env, base, MultisigOut(1, [key]), v, key, sig);
    SpentIffEnough(Bare, crypto, flags, base, 0, 1, [key], slots, w);
  }

  // Installing a script decides neither of the two differently, and the trial is of the signature under its byte.
  lemma NoneAssigned(before: Env, env: Env, base: Tx, signed: seq<Chunk>, v: Verification, key: bytes, sig: TxSig)
    returns (w: Verification)
    requires Comparable(before.tx, base) && Comparable(env.tx, base) && before.crypto == env.crypto && before.nin == env.nin
    requires Decides(v, before, signed) && SlotOk(v, key, sig) && !v(sig.r, sig.s, sig.sigtype % 256, key) && Writable(sig)
    ensures Decides(w, env, signed) && SlotOk(w, key, sig)
    ensures !Assignable(Trials(env), signed, [SigBytes(sig)], [key])
  {
    w := VerificationOf(env, signed);
    SameDecision(before, env, base, signed, v, w, sig.r, sig.s, sig.sigtype, key);
    SameDecision(before, env, base, signed, v, w, sig.r, sig.s, sig.sigtype % 256, key);
    NotAssignable(env, signed, w, key, sig);
  }

  lemma PushableAndComparable(kind: Kind, crypto: Crypto, flags: Flags, base: Tx, nin: nat, m: nat, keys: seq<bytes>,
                              slots: Slots, v: Verification)
    requires Spendable(kind, crypto, base, nin, m, keys) && Decides(v, Env(crypto, flags, base, nin), MultisigOut(m, keys))
    requires SlotsOk(v, keys, slots) && Count(slots) <= m
    ensures AllPushable(CreateSignatures(slots))
    ensures Comparable(Installed(kind, crypto, flags, base, nin, m, keys, slots).tx, base)
  {
    var before := Env(crypto, flags, base, nin);
    SlotsPresentable(before, MultisigOut(m, keys), v, keys, slots);
    PresentableIsPushable(before, CreateSignatures(slots), keys);
    InstalledIsComparable(kind, crypto, flags, base, nin, m, keys, slots);
  }

  lemma SameDecision(a: Env, b: Env, base: Tx, signed: seq<Chunk>, v: Verification, w: Verification,
                     r: nat, s: nat, hashType: int, key: bytes)
    requires Comparable(a.tx, base) && Comparable(b.tx, base) && a.crypto == b.crypto && a.nin == b.nin
    requires Decides(v, a, signed) && Decides(w, b, signed)
    ensures v(r, s, hashType, key) == w(r, s, hashType, key)
  {
    SameDigest(a.crypto, a.tx, b.tx, base, r, s, hashType, key, a.nin, signed);
    assert v(r, s, hashType, key) == Verifies(a.crypto, a.tx, r, s, hashType, key, a.nin, signed);
    assert w(r, s, hashType, key) == Verifies(b.crypto, b.tx, r, s, hashType, key, b.nin, signed);
  }

  lemma NotAssignable(env: Env, signed: seq<Chunk>, v: Verification, key: bytes, sig: TxSig)
    requires Decides(v, env, signed) && Writable(sig) && !v(sig.r, sig.s, sig.sigtype % 256, key)
    ensures !Assignable(Trials(env), signed, [SigBytes(sig)], [key])
  {
    if Assignable(Trials(env), signed, [SigBytes(sig)], [key]) {
      var f :| Assigns(Trials(env), signed, [SigBytes(sig)], [key], f);
      assert Trials(env)(signed, [SigBytes(sig)][0], [key][f[0]]) == Hit;
      HitVerifies(env, signed, key, sig);
    }
  }

  lemma OneOffer(env: Env, v: Verification, key: bytes, sig: TxSig)
    requires BuildableOut(1, [key]) && sig.publicKey == key && sig.inputIndex == env.nin
    requires Decides(v, env, MultisigOut(1, [key])) && v(sig.r, sig.s, sig.sigtype, key)
    ensures After(env.crypto, 1, [key], [Offered(env.tx, sig)]) == [Some(sig)]
    ensures CreateSignatures([Some(sig)]) == [SigBytes(sig)] && Count([Some(sig)]) == 1
  {
    assert Verifies(env.crypto, env.tx, sig.r, sig.s, sig.sigtype, key, env.nin, MultisigOut(1, [key]));
    OneSlot(sig);
    CountEmpty(1);
    AfterOne(env.crypto, 1, [key], Offered(env.tx, sig));
    assert Empty(1)[0 := Some(sig)] == [Some(sig)];
  }

  lemma OneSlot(sig: TxSig)
    ensures CreateSignatures([Some(sig)]) == [SigBytes(sig)] && Count([Some(sig)]) == 1
  {
    var slots: Slots := [Some(sig)];
    assert slots[..0] == [];
    assert CreateSignatures([]) == [] && Count([]) == 0;
  }

  lemma AfterOne(crypto: Crypto, m: nat, keys: seq<bytes>, ev: Event)
    requires BuildableOut(m, keys)
    ensures After(crypto, m, keys, [ev]) == Apply(crypto, m, keys, Empty(|keys|), ev)
  {
    assert [ev][..0] == [];
  }

  // A trial that hits is of the signature as the script carries it.
  lemma HitVerifies(env: Env, signed: seq<Chunk>, key: bytes, sig: TxSig)
    requires Writable(sig) && Try(env, signed, SigBytes(sig), key) == Hit
    ensures Verifies(env.crypto, env.tx, sig.r, sig.s, sig.sigtype % 256, key, env.nin, signed)
  {
    Der.WrittenSignatureIsCanonical(Der.Signature(sig.r, sig.s, sig.sigtype % 256));
  }

  // ----- the code -----

  lemma SortedMembers(keys: seq<bytes>)
    ensures forall k :: k in Sort(keys) ==> k in keys
  {
    SortOrders(keys);
    forall k | k in Sort(keys) ensures k in keys {
      assert k in multiset(Sort(keys));
    }
  }

  lemma SortedPushable(keys: seq<bytes>)
    requires AllPushable(keys)
    ensures AllPushable(Sort(keys)) && |Sort(keys)| == |keys|
  {
    SortOrders(keys);
    SortedMembers(keys);
  }

  // The multisig script sorts the keys it is given; None where a count is refused.
  method BuildMultisigOut(pubkeys: seq<bytes>, threshold: nat) returns (r: Option<seq<Chunk>>)
    requires AllPushable(pubkeys)
    ensures AllPushable(Sort(pubkeys)) && |Sort(pubkeys)| == |pubkeys|
    ensures r == if threshold <= |pubkeys| <= MAX_KEYS then Some(MultisigOut(threshold, Sort(pubkeys))) else None
  {
    SortedPushable(pubkeys);
    if threshold > |pubkeys| || threshold > 16 { return None; }
    var script := new ScriptBuilder([SmallInt(threshold)]);
    var sorted := Sort(pubkeys);
    for i := 0 to |sorted|
      invariant fresh(script) && AllPushable(sorted[..i])
      invariant script.chunks == [SmallInt(threshold)] + Pushes(sorted[..i])
    {
      script.AddBuffer(sorted[i]);
      PushesGrow(sorted, i);
    }
    if |pubkeys| > 16 { return None; }
    assert sorted[..|sorted|] == sorted;
    r := Some(script.chunks + [SmallInt(|pubkeys|)] + [Plain(OP_CHECKMULTISIG)]);
    assert r.value == script.chunks + [SmallInt(|pubkeys|), Plain(OP_CHECKMULTISIG)];
  }

  lemma PushesGrow(bufs: seq<bytes>, i: nat)
    requires i < |bufs| && AllPushable(bufs)
    ensures Pushes(bufs[..i + 1]) == Pushes(bufs[..i]) + [PushOf(bufs[i])]
  {
  }

  method BuildMultisigIn(signatures: seq<bytes>) returns (script: seq<Chunk>)
    requires AllPushable(signatures)
    ensures script == MultisigIn(signatures)
  {
    var s := new ScriptBuilder([SmallInt(0)]);
    for i := 0 to |signatures|
      invariant fresh(s) && AllPushable(signatures[..i])
      invariant s.chunks == MultisigIn(signatures[..i])
    {
      s.AddBuffer(signatures[i]);
      assert signatures[..i + 1] == signatures[..i] + [signatures[i]];
      assert Pushes(signatures[..i + 1]) == Pushes(signatures[..i]) + [PushOf(signatures[i])];
    }
    assert signatures[..|signatures|] == signatures;
    return s.chunks;
  }

  lemma SignaturesPushable(slots: Slots)
    requires forall i :: 0 <= i < |slots| && slots[i].Some? ==> |SigBytes(slots[i].value)| < MAX_PUSH
    ensures AllPushable(CreateSignatures(slots))
  {
    PositionsIncrease(slots);
    forall b | b in CreateSignatures(slots) ensures |b| < MAX_PUSH {
      var j :| 0 <= j < |CreateSignatures(slots)| && CreateSignatures(slots)[j] == b;
      assert Holds(slots, Positions(slots)[j], b);
    }
  }

  lemma WritableIsPushable(sig: TxSig)
    requires Writable(sig)
    ensures |SigBytes(sig)| < MAX_PUSH
  {
    WrittenIsShaped(sig);
  }

  method IndexKeys(publicKeys: seq<bytes>) returns (index: map<bytes, nat>)
    ensures forall k :: k in index <==> k in publicKeys
    ensures forall k :: k in publicKeys ==> index[k] == IndexOf(publicKeys, k)
  {
    index := map[];
    for i := 0 to |publicKeys|
      invariant forall k :: k in index <==> k in publicKeys[..i]
      invariant forall k :: k in publicKeys[..i] ==> index[k] == IndexOf(publicKeys[..i], k)
    {
      assert publicKeys[..i + 1][..i] == publicKeys[..i];
      index := index[publicKeys[i] := i];
    }
    assert publicKeys[..|publicKeys|] == publicKeys;
  }

  // Both input classes: they differ in the script they sign, check and write, not in how their slots work.
  class MultisigInput {
    const kind: Kind
    const crypto: Crypto
    const publicKeys: seq<bytes>
    const threshold: nat
    const multisigScript: seq<Chunk>
    const publicKeyIndex: map<bytes, nat>
    var signatures: Slots
    var script: seq<Chunk>

    ghost predicate Valid() reads this
    {
      && Sound(crypto) && BuildableOut(threshold, publicKeys) && multisigScript == MultisigOut(threshold, publicKeys)
      && |ToBuffer(multisigScript)| < MAX_PUSH
      && |signatures| == |publicKeys|
      && (forall k :: k in publicKeyIndex <==> k in publicKeys)
      && (forall k :: k in publicKeys ==> publicKeyIndex[k] == IndexOf(publicKeys, k))
      && (forall i :: 0 <= i < |signatures| && signatures[i].Some? ==> Writable(signatures[i].value))
    }

    constructor (kind: Kind, crypto: Crypto, publicKeys: seq<bytes>, threshold: nat)
      requires Sound(crypto) && BuildableOut(threshold, publicKeys)
      requires |ToBuffer(MultisigOut(threshold, publicKeys))| < MAX_PUSH
      ensures Valid() && this.kind == kind && this.crypto == crypto
      ensures this.publicKeys == publicKeys && this.threshold == threshold
      ensures signatures == After(crypto, threshold, publicKeys, []) && script == []
    {
      this.kind, this.crypto, this.publicKeys, this.threshold := kind, crypto, publicKeys, threshold;
      multisigScript := MultisigOut(threshold, publicKeys);
      var index := IndexKeys(publicKeys);
      publicKeyIndex := index;
      signatures := Empty(|publicKeys|);
      script := [];
    }

    method CountSignatures() returns (sum: nat)
      ensures sum == Count(signatures)
    {
      sum := 0;
      for i := 0 to |signatures|
        invariant sum == Count(signatures[..i])
      {
        assert signatures[..i + 1][..i] == signatures[..i];
        if signatures[i].Some? { sum := sum + 1; }
      }
      assert signatures[..|signatures|] == signatures;
    }

    method IsFullySigned() returns (full: bool)
      ensures full == (Count(signatures) == threshold)
    {
      var n := CountSignatures();
      return n == threshold;
    }

    // The script is what the slots make it.
    ghost predicate ScriptCurrent() reads this
      requires Valid()
    {
      AllPushable(CreateSignatures(signatures)) && script == InScript(kind, CreateSignatures(signatures), multisigScript)
    }

    method UpdateScript()
      requires Valid()
      modifies this`script
      ensures Valid() && ScriptCurrent()
    {
      forall i | 0 <= i < |signatures| && signatures[i].Some? ensures |SigBytes(signatures[i].value)| < MAX_PUSH {
        WritableIsPushable(signatures[i].value);
      }
      SignaturesPushable(signatures);
      script := BuildMultisigIn(CreateSignatures(signatures));
      if kind.ScriptHash? {
        script := script + [PushOf(ToBuffer(multisigScript))];
      }
    }

    // Refused where the input is fully signed, the key is not one of its keys, or the signature does not verify.
    method AddSignature(tx: Tx, sig: TxSig) returns (ok: bool)
      requires Valid()
      modifies this
      ensures Valid()
      ensures ok == AddTo(crypto, publicKeys, threshold, multisigScript, old(signatures), tx, sig).Some?
      ensures signatures == Apply(crypto, threshold, publicKeys, old(signatures), Offered(tx, sig))
      ensures if ok then ScriptCurrent() else script == old(script)
    {
      var full := IsFullySigned();
      if full { return false; }
      if sig.publicKey !in publicKeyIndex { return false; }
      if !IsValidSignature(crypto, multisigScript, tx, sig) { return false; }
      ValidIsWritable(crypto, multisigScript, tx, sig);
      signatures := signatures[publicKeyIndex[sig.publicKey] := Some(sig)];
      UpdateScript();
      return true;
    }

    method ClearSignatures()
      requires Valid()
      modifies this
      ensures Valid() && ScriptCurrent()
      ensures signatures == Apply(crypto, threshold, publicKeys, old(signatures), Cleared)
    {
      signatures := Empty(|publicKeys|);
      UpdateScript();
    }
  }

  lemma ValidIsWritable(crypto: Crypto, signed: seq<Chunk>, tx: Tx, sig: TxSig)
    requires Sound(crypto) && IsValidSignature(crypto, signed, tx, sig)
    ensures Writable(sig)
  {
  }

  ghost predicate PaysTo(kind: Kind, crypto: Crypto, keys: seq<bytes>, threshold: nat, output: seq<Chunk>)
  {
    && BuildableOut(threshold, keys)
    && |crypto.sha256ripemd160(ToBuffer(MultisigOut(threshold, keys)))| < MAX_PUSH
    && output == OutScript(kind, crypto, threshold, keys)
  }

  // An input for an output, if the sorted keys and the threshold make up the script the output pays to.
  method NewMultisigInput(kind: Kind, crypto: Crypto, pubkeys: seq<bytes>, threshold: nat, output: seq<Chunk>)
    returns (r: Option<MultisigInput>)
    requires Sound(crypto) && forall k :: k in pubkeys ==> KeyBytes(k)
    ensures r.Some? <==> PaysTo(kind, crypto, Sort(pubkeys), threshold, output)
    ensures r.Some? ==> fresh(r.value) && r.value.Valid()
    ensures r.Some? ==> r.value.publicKeys == Sort(pubkeys) && r.value.threshold == threshold && r.value.kind == kind
    ensures r.Some? ==> r.value.signatures == After(crypto, threshold, Sort(pubkeys), [])
  {
    SortIgnoresOrder(pubkeys, Sort(pubkeys)) by { SortOrders(pubkeys); }
    SortedMembers(pubkeys);
    SortedPushable(pubkeys);
    var built := BuildMultisigOut(Sort(pubkeys), threshold);
    if built.None? { return None; }
    OutIsShort(threshold, Sort(pubkeys));
    var expected := built.value;
    if kind.ScriptHash? {
      HashOutLayout(crypto, built.value);
      expected := ScriptHashOut(crypto, built.value);
    }
    HashOutLayout(crypto, built.value);
    if expected != output { return None; }
    var input := new MultisigInput(kind, crypto, Sort(pubkeys), threshold);
    return Some(input);
  }
}
