/** The pending-transaction proof: the phone signs it first, then the vault adds its signature. */
module PendingProof {
  import opened Prelude
  import opened Psbt
  import SV = SpendVerifier
  import opened SignatureGuards

  const OP_RETURN: Blob := [0x6a]

  // ---------- the textual form ----------

  /** Equal but for the order of an input's leaves and signatures, which the textual form does not keep. */
  ghost predicate Shuffled(p: Packet, q: Packet) {
    && p.tx == q.tx && p.extra == q.extra && |p.inputs| == |q.inputs|
    && forall i :: 0 <= i < |p.inputs| ==>
      SameButOrder(p.inputs[i], q.inputs[i]) && multiset(p.inputs[i].sigs) == multiset(q.inputs[i].sigs)
  }

  predicate SameButOrder(x: PInput, y: PInput) {
    x.utxo == y.utxo && x.sighash == y.sighash && multiset(x.leaves) == multiset(y.leaves)
  }

  predicate SameButSigs(x: PInput, y: PInput) { x.utxo == y.utxo && x.leaves == y.leaves && x.sighash == y.sighash }

  predicate OnlySigsDiffer(p: Packet, q: Packet) {
    && p.tx == q.tx && p.extra == q.extra && |p.inputs| == |q.inputs|
    && forall i :: 0 <= i < |p.inputs| ==> SameButSigs(p.inputs[i], q.inputs[i])
  }

  /** A signature record that has a textual form. */
  predicate SigShape(s: Option<Sig>) {
    s.Some? && |s.value.key| == 32 && |s.value.leafHash| == 32 && |s.value.signature| == 64 && s.value.sighash < 0x100
  }

  predicate SameSlot(a: Option<Sig>, b: Option<Sig>) {
    a.Some? && b.Some? && a.value.key == b.value.key && a.value.leafHash == b.value.leafHash
  }

  predicate SigsClean(sigs: seq<Option<Sig>>) {
    && (forall i :: 0 <= i < |sigs| ==> SigShape(sigs[i]))
    && (forall i, j :: 0 <= i < j < |sigs| ==> !SameSlot(sigs[i], sigs[j]))
  }

  /** One entry per transaction input, and signatures under pairwise different keys and leaves. */
  predicate Clean(p: Packet) {
    |p.inputs| == |p.tx.ins| && forall i :: 0 <= i < |p.inputs| ==> SigsClean(p.inputs[i].sigs)
  }

  predicate Repeats(p: Packet) {
    exists i, j, k :: 0 <= i < |p.inputs| && 0 <= j < k < |p.inputs[i].sigs| &&
      SameSlot(p.inputs[i].sigs[j], p.inputs[i].sigs[k])
  }

  datatype Codec = Codec(parse: Blob -> Option<Packet>, encode: Packet -> Blob)

  /** A text that the codec itself would write for what it parses to, with a leaf on every input; a
      packet with a final witness is not of this kind. */
  predicate Plain(k: Codec, raw: Blob) {
    var p := k.parse(raw);
    p.Some? && k.encode(p.value) == raw && forall i :: 0 <= i < |p.value.inputs| ==> p.value.inputs[i].leaves != []
  }

  /** What the packet codec does with packets that differ from a plain one only in their signatures:
      clean ones are read back up to order, and a repeated key and leaf is refused (BIP 174 allows no
      key twice). Everything that is parsed is clean. */
  ghost predicate Lawful(k: Codec) {
    && (forall raw :: k.parse(raw).Some? ==> Clean(k.parse(raw).value))
    && (forall raw, q :: Plain(k, raw) && OnlySigsDiffer(k.parse(raw).value, q) ==>
          && (Clean(q) ==> k.parse(k.encode(q)).Some? && Shuffled(q, k.parse(k.encode(q)).value))
          && (Repeats(q) ==> k.parse(k.encode(q)).None?))
  }

  // ---------- only the vault's signature added ----------

  function Without(sigs: seq<Option<Sig>>, key: Blob): seq<Option<Sig>> {
    if sigs == [] then []
    else
      var front, last := Without(sigs[..|sigs| - 1], key), sigs[|sigs| - 1];
      if last.Some? && last.value.key == key then front else front + [last]
  }

  function CountKey(sigs: seq<Option<Sig>>, key: Blob): nat {
    if sigs == [] then 0
    else
      var front, last := CountKey(sigs[..|sigs| - 1], key), sigs[|sigs| - 1];
      if last.Some? && last.value.key == key then front + 1 else front
  }

  function Strip(p: Packet, key: Blob): Packet { p.(inputs := StripInputs(p.inputs, key)) }

  function StripInputs(xs: seq<PInput>, key: Blob): (r: seq<PInput>)
    ensures |r| == |xs| && forall i :: 0 <= i < |xs| ==> r[i] == xs[i].(sigs := Without(xs[i].sigs, key))
  {
    if xs == [] then [] else [xs[0].(sigs := Without(xs[0].sigs, key))] + StripInputs(xs[1..], key)
  }

  ghost predicate OnlyVaultAdded(k: Codec, beforeRaw: Blob, afterRaw: Blob, vault: Blob) {
    var before, after := k.parse(beforeRaw), k.parse(afterRaw);
    && before.Some? && after.Some? && |before.value.inputs| == |after.value.inputs| && |vault| == 32
    && (forall i :: 0 <= i < |after.value.inputs| ==> CountKey(after.value.inputs[i].sigs, vault) == 1)
    && k.encode(Strip(after.value, vault)) == beforeRaw
  }

  /** requireOnlyVaultSignatureAdded. */
  method CheckOnlyVaultAdded(k: Codec, beforeRaw: Blob, afterRaw: Blob, vault: Blob) returns (ok: bool)
    ensures ok <==> OnlyVaultAdded(k, beforeRaw, afterRaw, vault)
  {
    var before, parsed := k.parse(beforeRaw), k.parse(afterRaw);
    if before.None? || parsed.None? { return false; }
    var after := parsed.value;
    var xs := after.inputs;
    if |before.value.inputs| != |xs| || |vault| != 32 { return false; }
    var i := 0;
    while i < |xs|
      invariant 0 <= i <= |xs| == |after.inputs|
      invariant forall j :: 0 <= j < i ==> CountKey(after.inputs[j].sigs, vault) == 1
      invariant forall j :: 0 <= j < |xs| ==>
        xs[j] == if j < i then after.inputs[j].(sigs := Without(after.inputs[j].sigs, vault)) else after.inputs[j]
    {
      var kept, added := Partition(xs[i].sigs, vault);
      if added != 1 { return false; }
      xs := xs[i := xs[i].(sigs := kept)];
      i := i + 1;
    }
    assert xs == StripInputs(after.inputs, vault);
    return k.encode(after.(inputs := xs)) == beforeRaw;
  }

  method Partition(sigs: seq<Option<Sig>>, key: Blob) returns (kept: seq<Option<Sig>>, added: nat)
    ensures kept == Without(sigs, key) && added == CountKey(sigs, key)
  {
    kept, added := [], 0;
    for n := 0 to |sigs|
      invariant kept == Without(sigs[..n], key) && added == CountKey(sigs[..n], key)
    {
      assert sigs[..n + 1][..n] == sigs[..n];
      if sigs[n].Some? && sigs[n].value.key == key { added := added + 1; } else { kept := kept + [sigs[n]]; }
    }
    assert sigs[..|sigs|] == sigs;
  }

  // ---------- what the check means ----------

  /** The one removed signature. */
  lemma {:induction false} WithoutOne(sigs: seq<Option<Sig>>, key: Blob) returns (s: Sig)
    requires CountKey(sigs, key) == 1
    ensures s.key == key && multiset(sigs) == multiset(Without(sigs, key)) + multiset{Some(s)}
  {
    var front, last := sigs[..|sigs| - 1], sigs[|sigs| - 1];
    assert sigs == front + [last];
    if last.Some? && last.value.key == key {
      WithoutNone(front, key);
      s := last.value;
    } else {
      s := WithoutOne(front, key);
    }
  }

  lemma {:induction false} WithoutNone(sigs: seq<Option<Sig>>, key: Blob)
    requires CountKey(sigs, key) == 0
    ensures Without(sigs, key) == sigs
  {
    if sigs != [] {
      var front := sigs[..|sigs| - 1];
      WithoutNone(front, key);
      assert sigs == front + [sigs[|sigs| - 1]];
    }
  }

  /** Each input of `after` has the signatures of `before` and one more, by the vault. */
  ghost predicate OneMoreEach(before: Packet, after: Packet, vault: Blob) {
    && before.tx == after.tx && before.extra == after.extra && |before.inputs| == |after.inputs|
    && forall i :: 0 <= i < |after.inputs| ==>
      SameButOrder(before.inputs[i], after.inputs[i]) && OneMore(before.inputs[i], after.inputs[i], vault)
  }

  ghost predicate OneMore(x: PInput, y: PInput, vault: Blob) {
    exists s: Sig :: s.key == vault && multiset(y.sigs) == multiset(x.sigs) + multiset{Some(s)}
  }

  lemma {:induction false} WithoutClean(sigs: seq<Option<Sig>>, key: Blob)
    requires SigsClean(sigs)
    ensures SigsClean(Without(sigs, key)) && forall s :: s in Without(sigs, key) ==> s in sigs
  {
    if sigs != [] {
      var front, last := sigs[..|sigs| - 1], sigs[|sigs| - 1];
      assert forall i :: 0 <= i < |front| ==> front[i] == sigs[i];
      WithoutClean(front, key);
      var kept := Without(front, key);
      forall i | 0 <= i < |kept| ensures !SameSlot(kept[i], last) {
        assert kept[i] in kept && kept[i] in front;
        var k :| 0 <= k < |front| && front[k] == kept[i];
        assert !SameSlot(sigs[k], sigs[|sigs| - 1]);
      }
    }
  }

  lemma StripClean(p: Packet, key: Blob)
    requires Clean(p)
    ensures Clean(Strip(p, key)) && OnlySigsDiffer(p, Strip(p, key))
  {
    forall i | 0 <= i < |p.inputs|
      ensures SigsClean(Strip(p, key).inputs[i].sigs)
    {
      WithoutClean(p.inputs[i].sigs, key);
    }
  }

  /** An accepted authorized proof is the phone's proof with exactly one vault signature on every input. */
  lemma OnlyVaultAddedMeans(k: Codec, beforeRaw: Blob, afterRaw: Blob, vault: Blob)
    requires Lawful(k) && Plain(k, afterRaw) && OnlyVaultAdded(k, beforeRaw, afterRaw, vault)
    ensures OneMoreEach(k.parse(beforeRaw).value, k.parse(afterRaw).value, vault)
  {
    var before, after := k.parse(beforeRaw).value, k.parse(afterRaw).value;
    var stripped := Strip(after, vault);
    StripClean(after, vault);
    assert Shuffled(stripped, before);
    forall i | 0 <= i < |after.inputs|
      ensures SameButOrder(before.inputs[i], after.inputs[i]) && OneMore(before.inputs[i], after.inputs[i], vault)
    {
      var s := WithoutOne(after.inputs[i].sigs, vault);
      assert SameButOrder(stripped.inputs[i], before.inputs[i]);
      assert s.key == vault && multiset(after.inputs[i].sigs) == multiset(before.inputs[i].sigs) + multiset{Some(s)};
    }
  }

  // ---------- the proof checks ----------

  /** The part of verifyPendingProof that does not look at signatures. */
  predicate ProofShape(p: Packet, inputs: seq<SV.Reserved>, tree: SV.Tree) {
    && inputs != [] && tree.pkScript != [] && tree.leaf != []
    && p.tx.version == 2 && p.tx.lockTime == 0 && |p.tx.ins| == |inputs| + 1 && |p.inputs| == |inputs| + 1
    && p.tx.outs == [TxOut(0, OP_RETURN)]
    && forall i :: 0 <= i < |p.inputs| ==> InputShape(p, inputs, tree, i)
  }

  predicate InputShape(p: Packet, inputs: seq<SV.Reserved>, tree: SV.Tree, i: nat)
    requires i < |p.inputs| == |p.tx.ins| == |inputs| + 1
  {
    && p.tx.ins[i].sequence == MAX_SEQUENCE
    && (i > 0 ==> SV.SameOutpoint(p.tx.ins[i].prev, inputs[i - 1]) && inputs[i - 1].script == tree.pkScript)
    && p.inputs[i].utxo == Some(TxOut(if i == 0 then 0 else inputs[i - 1].value, tree.pkScript))
  }

  /** Every input shows the vault's leaf and is signed by exactly the required keys. */
  ghost predicate ProofSigned(c: Crypto, p: Packet, tree: SV.Tree, required: seq<Blob>) {
    forall i :: 0 <= i < |p.inputs| ==> InputSigned(c, p, tree, required, i)
  }

  ghost predicate InputSigned(c: Crypto, p: Packet, tree: SV.Tree, required: seq<Blob>, i: nat)
    requires i < |p.inputs|
  {
    && ExactLeaf(c, p.inputs[i], tree.pkScript, tree.leaf, tree.control, required, SIGHASH_ALL)
    && SignedExactlyBy(c, p, i, required, tree.leaf, SIGHASH_ALL)
  }

  ghost predicate ProofOk(c: Crypto, p: Packet, inputs: seq<SV.Reserved>, tree: SV.Tree, required: seq<Blob>) {
    ProofShape(p, inputs, tree) && ProofSigned(c, p, tree, required)
  }

  // ---------- signing a phone-checked proof ----------

  lemma KeysDiffer(c: Crypto, p: Packet, i: nat, sigs: seq<Option<Sig>>, want: set<Blob>, leaf: Blob, sighash: nat,
          j: nat, k: nat)
    requires GoodSigs(c, p, i, sigs, want, leaf, sighash) && j < k < |sigs|
    ensures sigs[j].Some? && sigs[k].Some? && sigs[j].value.key != sigs[k].value.key
  {
  }

  lemma OneSigner(c: Crypto, p: Packet, i: nat, key: Blob, leaf: Blob, sighash: nat)
    requires SignedExactlyBy(c, p, i, [key], leaf, sighash)
    ensures |p.inputs[i].sigs| == 1 && p.inputs[i].sigs[0].Some? && p.inputs[i].sigs[0].value.key == key
  {
    var sigs := p.inputs[i].sigs;
    assert key in [key] && HasKey(sigs, key);
    assert forall k :: 0 <= k < |sigs| ==> sigs[k].value.key == key;
    if |sigs| > 1 {
      KeysDiffer(c, p, i, sigs, KeySet([key]), leaf, sighash, 0, 1);
      assert false;
    }
  }

  lemma TwoSigs(sigs: seq<Option<Sig>>, a: Sig, b: Sig)
    requires multiset(sigs) == multiset([Some(a), Some(b)])
    ensures sigs == [Some(a), Some(b)] || sigs == [Some(b), Some(a)]
  {
    assert |sigs| == |multiset(sigs)| == 2;
    assert sigs == [sigs[0], sigs[1]];
    assert sigs[0] in multiset(sigs) && sigs[1] in multiset(sigs);
    assert Some(a) in multiset(sigs) && Some(b) in multiset(sigs);
    if a == b { assert multiset(sigs)[Some(a)] == 2; }
  }

  lemma StripTwo(sigs: seq<Option<Sig>>, a: Sig, b: Sig)
    requires (sigs == [Some(a), Some(b)] || sigs == [Some(b), Some(a)]) && a.key != b.key
    ensures CountKey(sigs, b.key) == 1 && Without(sigs, b.key) == [Some(a)]
  {
    var one := sigs[..1];
    assert one == [sigs[0]] && one[..0] == [] && sigs[..|sigs| - 1] == one;
    assert CountKey(one, b.key) == if sigs[0].value.key == b.key then 1 else 0;
    assert Without(one, b.key) == if sigs[0].value.key == b.key then [] else one;
  }

  /** `r` is `p` with the vault's signature next to the phone's on every input. */
  ghost predicate Joined(p: Packet, r: Packet, sig: int -> Sig) {
    && r.tx == p.tx && r.extra == p.extra && |r.inputs| == |p.inputs|
    && forall i :: 0 <= i < |p.inputs| ==>
      SameButSigs(p.inputs[i], r.inputs[i]) && JoinedSigs(p.inputs[i].sigs, r.inputs[i].sigs, sig(i))
  }

  predicate JoinedSigs(before: seq<Option<Sig>>, after: seq<Option<Sig>>, s: Sig) {
    && |before| == 1 && before[0].Some?
    && (after == [before[0], Some(s)] || after == [Some(s), before[0]])
  }

  /** One leaf and one signature per input, by the phone over that leaf. */
  predicate OnePhone(p: Packet, phone: Blob, leafHash: Blob) {
    forall i :: 0 <= i < |p.inputs| ==> PhoneInput(p.inputs[i], phone, leafHash)
  }

  predicate PhoneInput(x: PInput, phone: Blob, leafHash: Blob) {
    |x.leaves| == 1 && |x.sigs| == 1 && x.sigs[0].Some? && x.sigs[0].value.key == phone &&
      x.sigs[0].value.leafHash == leafHash
  }

  /** The vault's signatures: its key, the leaf, and a textual form. */
  predicate VaultSigs(n: nat, sig: int -> Sig, vault: Blob, leafHash: Blob) {
    forall i :: 0 <= i < n ==> sig(i).key == vault && sig(i).leafHash == leafHash && SigShape(Some(sig(i)))
  }

  lemma SameSingle<T>(s: seq<T>, t: seq<T>)
    requires |s| == 1 && multiset(s) == multiset(t)
    ensures s == t
  {
    assert |t| == |multiset(t)| == 1;
    assert s[0] in multiset(t);
  }

  lemma JoinOne(before: seq<Option<Sig>>, after: seq<Option<Sig>>, s: Sig)
    requires |before| == 1 && before[0].Some? && multiset(after) == multiset(before + [Some(s)])
    ensures JoinedSigs(before, after, s)
  {
    assert before + [Some(s)] == [before[0], Some(s)];
    TwoSigs(after, before[0].value, s);
  }

  lemma SignedIsJoined(p: Packet, q: Packet, r: Packet, phone: Blob, leafHash: Blob, sig: int -> Sig)
    requires OnePhone(p, phone, leafHash) && Adds(p, q, UpTo(|p.inputs|), sig) && Shuffled(q, r)
    ensures Joined(p, r, sig)
  {
    forall i | 0 <= i < |p.inputs|
      ensures SameButSigs(p.inputs[i], r.inputs[i]) && JoinedSigs(p.inputs[i].sigs, r.inputs[i].sigs, sig(i))
    {
      assert i in UpTo(|p.inputs|) && SameButOrder(q.inputs[i], r.inputs[i]) &&
        PhoneInput(p.inputs[i], phone, leafHash);
      SameSingle(p.inputs[i].leaves, r.inputs[i].leaves);
      JoinOne(p.inputs[i].sigs, r.inputs[i].sigs, sig(i));
    }
  }

  lemma StripJoined(p: Packet, r: Packet, sig: int -> Sig, phone: Blob, vault: Blob, leafHash: Blob)
    requires Joined(p, r, sig) && OnePhone(p, phone, leafHash) && VaultSigs(|p.inputs|, sig, vault, leafHash) &&
             phone != vault
    ensures Strip(r, vault) == p && forall i :: 0 <= i < |r.inputs| ==> CountKey(r.inputs[i].sigs, vault) == 1
  {
    var t := Strip(r, vault);
    forall i | 0 <= i < |p.inputs| ensures CountKey(r.inputs[i].sigs, vault) == 1 && t.inputs[i] == p.inputs[i] {
      assert PhoneInput(p.inputs[i], phone, leafHash);
      StripTwo(r.inputs[i].sigs, p.inputs[i].sigs[0].value, sig(i));
      assert p.inputs[i].sigs == [p.inputs[i].sigs[0]];
    }
    assert t.inputs == p.inputs;
  }

  /** Under different keys the signed packet has a textual form; under one key it repeats a slot. */
  lemma SignedShape(p: Packet, q: Packet, phone: Blob, vault: Blob, leafHash: Blob, sig: int -> Sig)
    requires Clean(p) && p.inputs != [] && OnePhone(p, phone, leafHash)
    requires Adds(p, q, UpTo(|p.inputs|), sig) && VaultSigs(|p.inputs|, sig, vault, leafHash)
    ensures OnlySigsDiffer(p, q)
    ensures phone != vault ==> Clean(q)
    ensures phone == vault ==> Repeats(q)
  {
    forall i | 0 <= i < |p.inputs|
      ensures q.inputs[i].sigs == [p.inputs[i].sigs[0], Some(sig(i))] && SameButSigs(p.inputs[i], q.inputs[i])
    {
      assert i in UpTo(|p.inputs|) && PhoneInput(p.inputs[i], phone, leafHash);
      assert p.inputs[i].sigs == [p.inputs[i].sigs[0]];
    }
    if phone == vault {
      assert PhoneInput(p.inputs[0], phone, leafHash);
      assert SameSlot(q.inputs[0].sigs[0], q.inputs[0].sigs[1]);
    } else {
      forall i | 0 <= i < |q.inputs| ensures SigsClean(q.inputs[i].sigs) {
        assert PhoneInput(p.inputs[i], phone, leafHash) && SigShape(p.inputs[i].sigs[0]);
      }
    }
  }

  /** Reading back the signed proof. */
  lemma ReadsBack(k: Codec, raw: Blob, q: Packet, phone: Blob, vault: Blob, leafHash: Blob, sig: int -> Sig)
    requires Lawful(k) && Plain(k, raw) && k.parse(raw).value.inputs != []
    requires OnePhone(k.parse(raw).value, phone, leafHash)
    requires Adds(k.parse(raw).value, q, UpTo(|k.parse(raw).value.inputs|), sig)
    requires VaultSigs(|k.parse(raw).value.inputs|, sig, vault, leafHash)
    ensures k.parse(k.encode(q)).Some? <==> phone != vault
    ensures phone != vault ==> Joined(k.parse(raw).value, k.parse(k.encode(q)).value, sig)
  {
    var p := k.parse(raw).value;
    SignedShape(p, q, phone, vault, leafHash, sig);
    if phone != vault { SignedIsJoined(p, q, k.parse(k.encode(q)).value, phone, leafHash, sig); }
  }

  lemma OnlyVaultAddedIff(k: Codec, raw: Blob, q: Packet, phone: Blob, vault: Blob, leafHash: Blob, sig: int -> Sig)
    requires Lawful(k) && Plain(k, raw) && |vault| == 32
    requires k.parse(raw).value.inputs != [] && OnePhone(k.parse(raw).value, phone, leafHash)
    requires Adds(k.parse(raw).value, q, UpTo(|k.parse(raw).value.inputs|), sig)
    requires VaultSigs(|k.parse(raw).value.inputs|, sig, vault, leafHash)
    ensures OnlyVaultAdded(k, raw, k.encode(q), vault) <==> phone != vault
  {
    ReadsBack(k, raw, q, phone, vault, leafHash, sig);
    if phone != vault { StripJoined(k.parse(raw).value, k.parse(k.encode(q)).value, sig, phone, vault, leafHash); }
  }

  lemma JoinedSigned(c: Crypto, p: Packet, r: Packet, i: nat, tree: SV.Tree, phone: Blob, vault: Blob, s: Sig)
    requires i < |p.inputs| == |r.inputs| && p.tx == r.tx && Prevouts(p.inputs) == Prevouts(r.inputs)
    requires SameButSigs(p.inputs[i], r.inputs[i]) && JoinedSigs(p.inputs[i].sigs, r.inputs[i].sigs, s)
    requires ExactLeaf(c, p.inputs[i], tree.pkScript, tree.leaf, tree.control, [phone], SIGHASH_ALL)
    requires SignedExactlyBy(c, p, i, [phone], tree.leaf, SIGHASH_ALL)
    requires GoodSig(c, p, i, Some(s), tree.leaf, SIGHASH_ALL) && s.key == vault && |vault| == 32 && phone != vault
    ensures ExactLeaf(c, r.inputs[i], tree.pkScript, tree.leaf, tree.control, [phone, vault], SIGHASH_ALL)
    ensures SignedExactlyBy(c, r, i, [phone, vault], tree.leaf, SIGHASH_ALL)
  {
    OneSigner(c, p, i, phone, tree.leaf, SIGHASH_ALL);
    var ph := p.inputs[i].sigs[0];
    assert |phone| == 32 by { assert |[phone][0]| == 32; }
    assert GoodSig(c, p, i, ph, tree.leaf, SIGHASH_ALL);
    assert GoodSig(c, r, i, ph, tree.leaf, SIGHASH_ALL) && GoodSig(c, r, i, Some(s), tree.leaf, SIGHASH_ALL);
    var sigs := r.inputs[i].sigs;
    assert sigs[0].value.key != sigs[1].value.key;
    assert GoodSigs(c, r, i, sigs, KeySet([phone, vault]), tree.leaf, SIGHASH_ALL);
    assert HasKey(sigs, phone) && HasKey(sigs, vault);
  }

  lemma DualSigned(c: Crypto, p: Packet, r: Packet, inputs: seq<SV.Reserved>, tree: SV.Tree, phone: Blob, vault: Blob,
          sig: int -> Sig)
    requires ProofOk(c, p, inputs, tree, [phone]) && Joined(p, r, sig) && |vault| == 32 && phone != vault
    requires forall i :: 0 <= i < |p.inputs| ==>
             sig(i).key == vault && GoodSig(c, p, i, Some(sig(i)), tree.leaf, SIGHASH_ALL)
    ensures ProofOk(c, r, inputs, tree, [phone, vault])
  {
    assert Prevouts(p.inputs) == Prevouts(r.inputs);
    assert ProofShape(r, inputs, tree) by {
      forall i | 0 <= i < |r.inputs| ensures InputShape(r, inputs, tree, i) {
        assert SameButSigs(p.inputs[i], r.inputs[i]) && InputShape(p, inputs, tree, i);
      }
    }
    forall i | 0 <= i < |r.inputs| ensures InputSigned(c, r, tree, [phone, vault], i) {
      assert InputSigned(c, p, tree, [phone], i);
      JoinedSigned(c, p, r, i, tree, phone, vault, sig(i));
    }
  }

  lemma PhoneProofSigs(c: Crypto, p: Packet, tree: SV.Tree, phone: Blob)
    requires ProofSigned(c, p, tree, [phone])
    ensures OnePhone(p, phone, c.leafHash(tree.leaf))
  {
    forall i | 0 <= i < |p.inputs| ensures PhoneInput(p.inputs[i], phone, c.leafHash(tree.leaf)) {
      assert InputSigned(c, p, tree, [phone], i);
      OneSigner(c, p, i, phone, tree.leaf, SIGHASH_ALL);
      assert GoodSig(c, p, i, p.inputs[i].sigs[0], tree.leaf, SIGHASH_ALL);
    }
  }

  lemma PhoneProofPlain(k: Codec, raw: Blob, phone: Blob, leafHash: Blob)
    requires k.parse(raw).Some? && k.encode(k.parse(raw).value) == raw
    requires OnePhone(k.parse(raw).value, phone, leafHash)
    ensures Plain(k, raw)
  {
    var p := k.parse(raw).value;
    forall i | 0 <= i < |p.inputs| ensures p.inputs[i].leaves != [] {
      assert PhoneInput(p.inputs[i], phone, leafHash);
    }
  }

  lemma VaultSigsShape(c: Crypto, p: Packet, sig: int -> Sig, vault: Blob, leaf: Blob)
    requires |vault| == 32 && |c.leafHash(leaf)| == 32
    requires forall i :: 0 <= i < |p.inputs| ==>
             sig(i).key == vault && GoodSig(c, p, i, Some(sig(i)), leaf, SIGHASH_ALL)
    ensures VaultSigs(|p.inputs|, sig, vault, c.leafHash(leaf))
  {
  }

  lemma PhoneProofReady(c: Crypto, k: Codec, raw: Blob, inputs: seq<SV.Reserved>, tree: SV.Tree,
                        phone: Blob, vault: Blob, sig: int -> Sig)
    requires k.parse(raw).Some? && k.encode(k.parse(raw).value) == raw
    requires ProofOk(c, k.parse(raw).value, inputs, tree, [phone]) && |vault| == 32 && |c.leafHash(tree.leaf)| == 32
    requires forall i :: 0 <= i < |k.parse(raw).value.inputs| ==>
               sig(i).key == vault && GoodSig(c, k.parse(raw).value, i, Some(sig(i)), tree.leaf, SIGHASH_ALL)
    ensures var p, h := k.parse(raw).value, c.leafHash(tree.leaf);
            && Plain(k, raw) && p.inputs != [] && OnePhone(p, phone, h) && VaultSigs(|p.inputs|, sig, vault, h)
  {
    var p := k.parse(raw).value;
    PhoneProofSigs(c, p, tree, phone);
    PhoneProofPlain(k, raw, phone, c.leafHash(tree.leaf));
    VaultSigsShape(c, p, sig, vault, tree.leaf);
  }

  lemma SignedReadsDual(c: Crypto, k: Codec, raw: Blob, q: Packet, inputs: seq<SV.Reserved>, tree: SV.Tree,
                        phone: Blob, vault: Blob, sig: int -> Sig)
    requires Lawful(k) && Plain(k, raw) && phone != vault && |vault| == 32
    requires var p, h := k.parse(raw).value, c.leafHash(tree.leaf);
             && p.inputs != [] && OnePhone(p, phone, h) && VaultSigs(|p.inputs|, sig, vault, h)
             && Adds(p, q, UpTo(|p.inputs|), sig) && ProofOk(c, p, inputs, tree, [phone])
    requires forall i :: 0 <= i < |k.parse(raw).value.inputs| ==>
               sig(i).key == vault && GoodSig(c, k.parse(raw).value, i, Some(sig(i)), tree.leaf, SIGHASH_ALL)
    ensures k.parse(k.encode(q)).Some? && ProofOk(c, k.parse(k.encode(q)).value, inputs, tree, [phone, vault])
  {
    ReadsBack(k, raw, q, phone, vault, c.leafHash(tree.leaf), sig);
    DualSigned(c, k.parse(raw).value, k.parse(k.encode(q)).value, inputs, tree, phone, vault, sig);
  }

  /** Signing a proof that passed the phone check always passes the only-one-added check, and gives a
      proof signed by phone and vault, exactly when the two keys differ. */
  lemma SigningPhoneProof(c: Crypto, k: Codec, raw: Blob, q: Packet, inputs: seq<SV.Reserved>, tree: SV.Tree,
                          phone: Blob, vault: Blob, sig: int -> Sig)
    requires Lawful(k) && k.parse(raw).Some? && k.encode(k.parse(raw).value) == raw
    requires ProofOk(c, k.parse(raw).value, inputs, tree, [phone]) && |vault| == 32 && |c.leafHash(tree.leaf)| == 32
    requires Adds(k.parse(raw).value, q, UpTo(|k.parse(raw).value.inputs|), sig)
    requires forall i :: 0 <= i < |q.inputs| ==>
               sig(i).key == vault && GoodSig(c, k.parse(raw).value, i, Some(sig(i)), tree.leaf, SIGHASH_ALL)
    ensures OnlyVaultAdded(k, raw, k.encode(q), vault) <==> phone != vault
    ensures phone != vault ==>
              && k.parse(k.encode(q)).Some?
              && ProofOk(c, k.parse(k.encode(q)).value, inputs, tree, [phone, vault])
  {
    var h := c.leafHash(tree.leaf);
    PhoneProofReady(c, k, raw, inputs, tree, phone, vault, sig);
    OnlyVaultAddedIff(k, raw, q, phone, vault, h, sig);
    if phone != vault { SignedReadsDual(c, k, raw, q, inputs, tree, phone, vault, sig); }
  }

  // ---------- the verifier ----------

  /** verifyPendingProof, but for the intent library and the message. */
  method VerifyProof(c: Crypto, p: Packet, inputs: seq<SV.Reserved>, tree: SV.Tree, required: seq<Blob>)
    returns (ok: bool)
    ensures ok <==> ProofOk(c, p, inputs, tree, required)
  {
    if inputs == [] || tree.pkScript == [] || tree.leaf == [] { return false; }
    if p.tx.version != 2 || p.tx.lockTime != 0 { return false; }
    if |p.tx.ins| != |inputs| + 1 || |p.inputs| != |inputs| + 1 { return false; }
    if |p.tx.outs| != 1 || p.tx.outs[0].value != 0 || p.tx.outs[0].script != OP_RETURN { return false; }
    assert p.tx.outs == [p.tx.outs[0]];
    var i := 0;
    while i < |p.inputs|
      invariant 0 <= i <= |p.inputs|
      invariant forall j :: 0 <= j < i ==> InputShape(p, inputs, tree, j)
      invariant forall j :: 0 <= j < i ==> InputSigned(c, p, tree, required, j)
    {
      assert ProofOk(c, p, inputs, tree, required) ==>
          InputShape(p, inputs, tree, i) && InputSigned(c, p, tree, required, i);
      if p.tx.ins[i].sequence != MAX_SEQUENCE { return false; }
      var wantValue, wantScript := 0, tree.pkScript;
      if i > 0 {
        if !SV.SameOutpoint(p.tx.ins[i].prev, inputs[i - 1]) { return false; }
        wantValue, wantScript := inputs[i - 1].value, inputs[i - 1].script;
      }
      var utxo := p.inputs[i].utxo;
      if utxo.None? || utxo.value.value != wantValue { return false; }
      if utxo.value.script != tree.pkScript || utxo.value.script != wantScript { return false; }
      if !ExactLeaf(c, p.inputs[i], tree.pkScript, tree.leaf, tree.control, required, SIGHASH_ALL) { return false; }
      var signed := CheckSigners(c, p, i, required, tree.leaf, SIGHASH_ALL);
      if !signed { return false; }
      i := i + 1;
    }
    return true;
  }

  /** A phone proof is accepted exactly when it spends nothing but the message and the reserved outpoints in
      order, pays nothing, and carries the phone's one valid signature on every input. */
  lemma PhoneProofIff(c: Crypto, p: Packet, inputs: seq<SV.Reserved>, tree: SV.Tree, phone: Blob)
    ensures ProofOk(c, p, inputs, tree, [phone]) <==>
            && inputs != [] && tree.pkScript != [] && tree.leaf != []
            && p.tx.version == 2 && p.tx.lockTime == 0 && |p.tx.ins| == |p.inputs| == |inputs| + 1
            && |p.tx.outs| == 1 && p.tx.outs[0].value == 0 && p.tx.outs[0].script == [0x6a]
            && forall i :: 0 <= i < |p.inputs| ==> PhoneInputOk(c, p, inputs, tree, phone, i)
  {
    if |p.tx.outs| == 1 { assert p.tx.outs == [p.tx.outs[0]]; }
    if |p.tx.ins| == |p.inputs| == |inputs| + 1 {
      forall i | 0 <= i < |p.inputs|
        ensures PhoneInputOk(c, p, inputs, tree, phone, i) <==>
                InputShape(p, inputs, tree, i) && InputSigned(c, p, tree, [phone], i)
      {
        OneSignerIff(c, p, i, tree.pkScript, tree.leaf, tree.control, phone, SIGHASH_ALL);
        if i > 0 { OutpointIff(p.tx.ins[i].prev, inputs[i - 1]); }
      }
    }
  }

  /** Input 0 stands for the message; input i spends reserved outpoint i - 1. */
  ghost predicate PhoneInputOk(c: Crypto, p: Packet, inputs: seq<SV.Reserved>, tree: SV.Tree, phone: Blob, i: nat)
    requires i < |p.inputs| == |p.tx.ins| == |inputs| + 1
  {
    && p.tx.ins[i].sequence == 0xffff_ffff && p.inputs[i].utxo.Some?
    && p.inputs[i].utxo.value.value == (if i == 0 then 0 else inputs[i - 1].value)
    && (i > 0 ==> SpendsOutpoint(p.tx.ins[i].prev, inputs[i - 1]) && inputs[i - 1].script == tree.pkScript)
    && ShowsLeaf(c, p.inputs[i], tree.pkScript, tree.leaf, tree.control, 1)
    && OneSignature(c, p, i, phone, tree.leaf, 1)
  }

  /** The hash is the stored transaction id backwards. */
  predicate SpendsOutpoint(o: OutPoint, r: SV.Reserved) {
    && |o.hash| == |r.txid| && o.index == r.vout % 0x1_0000_0000
    && forall k :: 0 <= k < |r.txid| ==> o.hash[k] == r.txid[|r.txid| - 1 - k]
  }

  lemma OutpointIff(o: OutPoint, r: SV.Reserved)
    ensures SV.SameOutpoint(o, r) <==> SpendsOutpoint(o, r)
  {
    SV.ReverseTwice(o.hash, r.txid);
  }
}
