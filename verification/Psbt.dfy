/** Partially signed transactions, with hashing, script and signature checks as parameters. */
module Psbt {
  import opened Prelude

  const SIGHASH_DEFAULT := 0
  const SIGHASH_ALL := 1
  const BASE_LEAF_VERSION := 0xc0
  const MAX_SEQUENCE := 0xffff_ffff

  datatype OutPoint = OutPoint(hash: Blob, index: nat)
  datatype TxIn = TxIn(prev: OutPoint, sequence: nat)
  datatype TxOut = TxOut(value: i64, script: Blob)
  datatype Tx = Tx(version: int, lockTime: nat, ins: seq<TxIn>, outs: seq<TxOut>)

  datatype Leaf = Leaf(version: nat, script: Blob, control: Blob)
  datatype Sig = Sig(key: Blob, leafHash: Blob, signature: Blob, sighash: nat)

  /** None stands for a nil entry. */
  datatype PInput = PInput(utxo: Option<TxOut>, leaves: seq<Option<Leaf>>, sighash: nat, sigs: seq<Option<Sig>>)

  /** `extra` is everything else a packet carries, as content without order. */
  datatype Packet = Packet(tx: Tx, inputs: seq<PInput>, extra: Blob)

  /** prevoutOk is the check of the spent output against its transaction; the arguments of verifies are
      transaction, prevouts, input, signature, key, leaf and sighash. */
  datatype Crypto = Crypto(
    txHash: Tx -> Blob,
    leafHash: Blob -> Blob,
    controlOk: (Blob, Blob, Blob) -> bool,
    checkpointDest: (Blob, Blob) -> Option<(Blob, Blob)>,
    firstKey: Blob -> Blob,
    prevoutOk: Packet -> bool,
    verifies: (Tx, seq<Option<TxOut>>, nat, Blob, Blob, Blob, nat) -> bool)

  function Prevouts(inputs: seq<PInput>): (r: seq<Option<TxOut>>)
    ensures |r| == |inputs| && forall i :: 0 <= i < |inputs| ==> r[i] == inputs[i].utxo
  {
    if inputs == [] then [] else [inputs[0].utxo] + Prevouts(inputs[1..])
  }

  /** verifySchnorrOnInputWithSighash. */
  predicate Verifies(c: Crypto, p: Packet, i: nat, signature: Blob, key: Blob, leaf: Blob, sighash: nat) {
    && i < |p.inputs| && i < |p.tx.ins| && |signature| == 64 && p.inputs[i].utxo.Some?
    && c.verifies(p.tx, Prevouts(p.inputs), i, signature, key, leaf, sighash)
  }

  function TheLeaf(x: PInput): Option<Leaf> { if |x.leaves| == 1 then x.leaves[0] else None }

  /** requireExactLeafWithSighash. */
  predicate ExactLeaf(c: Crypto, x: PInput, pkScript: Blob, leaf: Blob, control: Blob, allowed: seq<Blob>,
          sighash: nat) {
    && x.utxo.Some? && x.utxo.value.script == pkScript
    && TheLeaf(x).Some? && x.sighash == sighash
    && var l := TheLeaf(x).value;
    && l.version == BASE_LEAF_VERSION && l.script == leaf
    && c.controlOk(pkScript, l.script, l.control) && (control != [] ==> l.control == control)
    && forall i :: 0 <= i < |x.sigs| ==>
      x.sigs[i].Some? && x.sigs[i].value.sighash == sighash && x.sigs[i].value.leafHash == c.leafHash(leaf)
      && x.sigs[i].value.key in allowed
  }

  // ---------- signer sets ----------

  predicate GoodSig(c: Crypto, p: Packet, i: nat, s: Option<Sig>, leaf: Blob, sighash: nat) {
    && s.Some? && s.value.sighash == sighash && s.value.leafHash == c.leafHash(leaf)
    && Verifies(c, p, i, s.value.signature, s.value.key, leaf, sighash)
  }

  /** Valid signatures under different keys, all of them wanted. */
  ghost predicate GoodSigs(c: Crypto, p: Packet, i: nat, sigs: seq<Option<Sig>>, want: set<Blob>, leaf: Blob,
          sighash: nat) {
    && (forall k :: 0 <= k < |sigs| ==> GoodSig(c, p, i, sigs[k], leaf, sighash) && sigs[k].value.key in want)
    && (forall j, k :: 0 <= j < k < |sigs| ==> sigs[j].value.key != sigs[k].value.key)
  }

  function KeySet(signers: seq<Blob>): set<Blob> { set w | w in signers }

  /** Exactly one valid signature for every signer, and no other signature. */
  ghost predicate SignedExactlyBy(c: Crypto, p: Packet, i: nat, signers: seq<Blob>, leaf: Blob, sighash: nat) {
    && i < |p.inputs| && TheLeaf(p.inputs[i]).Some?
    && (forall k :: 0 <= k < |signers| ==> |signers[k]| == 32)
    && GoodSigs(c, p, i, p.inputs[i].sigs, KeySet(signers), leaf, sighash)
    && (forall w :: w in signers ==> HasKey(p.inputs[i].sigs, w))
  }

  predicate HasKey(sigs: seq<Option<Sig>>, w: Blob) {
    exists k :: 0 <= k < |sigs| && sigs[k].Some? && sigs[k].value.key == w
  }

  ghost predicate HoldsKeys(found: set<Blob>, sigs: seq<Option<Sig>>) { forall w :: w in found <==> HasKey(sigs, w) }

  lemma HoldsKeysAppend(found: set<Blob>, sigs: seq<Option<Sig>>, s: Sig)
    requires HoldsKeys(found, sigs)
    ensures HoldsKeys(found + {s.key}, sigs + [Some(s)])
  {
    var more := sigs + [Some(s)];
    forall w ensures w in found + {s.key} <==> HasKey(more, w) {
      if w == s.key {
        assert more[|sigs|] == Some(s);
      } else if HasKey(sigs, w) {
        var k :| 0 <= k < |sigs| && sigs[k].Some? && sigs[k].value.key == w;
        assert more[k] == sigs[k];
      }
    }
  }

  lemma GoodSigsAppend(c: Crypto, p: Packet, i: nat, sigs: seq<Option<Sig>>, s: Option<Sig>, want: set<Blob>,
          leaf: Blob, sighash: nat)
    ensures GoodSigs(c, p, i, sigs + [s], want, leaf, sighash) <==>
            && GoodSigs(c, p, i, sigs, want, leaf, sighash)
            && GoodSig(c, p, i, s, leaf, sighash) && s.value.key in want && !HasKey(sigs, s.value.key)
  {
    var more := sigs + [s];
    assert forall k :: 0 <= k < |sigs| ==> more[k] == sigs[k];
    assert more[|sigs|] == s;
  }

  lemma GoodSigsPrefix(c: Crypto, p: Packet, i: nat, sigs: seq<Option<Sig>>, n: nat, want: set<Blob>, leaf: Blob,
          sighash: nat)
    requires n <= |sigs| && GoodSigs(c, p, i, sigs, want, leaf, sighash)
    ensures GoodSigs(c, p, i, sigs[..n], want, leaf, sighash)
  {
    assert forall k :: 0 <= k < n ==> sigs[..n][k] == sigs[k];
  }

  /** The loop of requireVerifiedSignersWithSighash: the keys found, unless a signature is refused. */
  method CollectKeys(c: Crypto, p: Packet, i: nat, sigs: seq<Option<Sig>>, want: set<Blob>, leaf: Blob, sighash: nat)
    returns (found: Option<set<Blob>>)
    ensures found.Some? <==> GoodSigs(c, p, i, sigs, want, leaf, sighash)
    ensures found.Some? ==> HoldsKeys(found.value, sigs) && found.value <= want
  {
    var keys: set<Blob> := {};
    var n := 0;
    while n < |sigs|
      invariant 0 <= n <= |sigs| && keys <= want
      invariant HoldsKeys(keys, sigs[..n]) && GoodSigs(c, p, i, sigs[..n], want, leaf, sighash)
    {
      assert sigs[..n + 1] == sigs[..n] + [sigs[n]];
      GoodSigsAppend(c, p, i, sigs[..n], sigs[n], want, leaf, sighash);
      if GoodSigs(c, p, i, sigs, want, leaf, sighash) { GoodSigsPrefix(c, p, i, sigs, n + 1, want, leaf, sighash); }
      if sigs[n].None? { return None; }
      var s := sigs[n].value;
      if s.key !in want || s.key in keys { return None; }
      if s.sighash != sighash || s.leafHash != c.leafHash(leaf) { return None; }
      if !Verifies(c, p, i, s.signature, s.key, leaf, sighash) { return None; }
      HoldsKeysAppend(keys, sigs[..n], s);
      keys := keys + {s.key};
      n := n + 1;
    }
    assert sigs[..n] == sigs;
    return Some(keys);
  }

  lemma {:induction false} DistinctKeysCount(sigs: seq<Option<Sig>>, keys: set<Blob>)
    requires (forall k :: 0 <= k < |sigs| ==> sigs[k].Some?) && HoldsKeys(keys, sigs)
    requires forall j, k :: 0 <= j < k < |sigs| ==> sigs[j].value.key != sigs[k].value.key
    ensures |keys| == |sigs|
    decreases |sigs|
  {
    if sigs == [] {
      assert keys == {};
    } else {
      var front, last := sigs[..|sigs| - 1], sigs[|sigs| - 1].value.key;
      var fewer := keys - {last};
      forall w ensures w in fewer <==> HasKey(front, w) {
        if w in fewer {
          var k :| 0 <= k < |sigs| && sigs[k].Some? && sigs[k].value.key == w;
          assert front[k] == sigs[k];
        }
        if HasKey(front, w) {
          var k :| 0 <= k < |front| && front[k].Some? && front[k].value.key == w;
          assert sigs[k] == front[k];
          assert HasKey(sigs, w);
        }
      }
      DistinctKeysCount(front, fewer);
      assert HasKey(sigs, last);
      assert keys == fewer + {last};
    }
  }

  /** As many signatures as there are different signers. */
  lemma SignerCount(c: Crypto, p: Packet, i: nat, signers: seq<Blob>, leaf: Blob, sighash: nat)
    requires SignedExactlyBy(c, p, i, signers, leaf, sighash)
    ensures |p.inputs[i].sigs| == |KeySet(signers)|
  {
    var sigs, keys := p.inputs[i].sigs, KeySet(signers);
    forall w ensures w in keys <==> HasKey(sigs, w) {
      if HasKey(sigs, w) { var k :| 0 <= k < |sigs| && sigs[k].Some? && sigs[k].value.key == w; }
    }
    DistinctKeysCount(sigs, keys);
  }

  lemma SubsetOfSameSize(a: set<Blob>, b: set<Blob>)
    requires a <= b
    ensures |a| == |b| <==> a == b
  {
    assert b == a + (b - a);
  }

  /** requireVerifiedSignersWithSighash. */
  method CheckSigners(c: Crypto, p: Packet, i: nat, signers: seq<Blob>, leaf: Blob, sighash: nat) returns (ok: bool)
    ensures ok <==> SignedExactlyBy(c, p, i, signers, leaf, sighash)
  {
    if i >= |p.inputs| { return false; }
    for n := 0 to |signers|
      invariant forall k :: 0 <= k < n ==> |signers[k]| == 32
    {
      if |signers[n]| != 32 { return false; }
    }
    if TheLeaf(p.inputs[i]).None? { return false; }
    var want := KeySet(signers);
    var found := CollectKeys(c, p, i, p.inputs[i].sigs, want, leaf, sighash);
    if found.None? { return false; }
    SubsetOfSameSize(found.value, want);
    return |found.value| == |want|;
  }

  // ---------- an input with one signer, read off its own fields ----------

  /** The input shows one leaf of the base version, committed to by the spent script. */
  predicate ShowsLeaf(c: Crypto, x: PInput, pkScript: Blob, leaf: Blob, control: Blob, sighash: nat) {
    && x.utxo.Some? && x.utxo.value.script == pkScript && x.sighash == sighash
    && |x.leaves| == 1 && x.leaves[0].Some?
    && x.leaves[0].value.version == 0xc0 && x.leaves[0].value.script == leaf
    && c.controlOk(pkScript, leaf, x.leaves[0].value.control)
    && (control == [] || control == x.leaves[0].value.control)
  }

  /** Its one signature is by this key, over this leaf, and verifies on this very transaction. */
  ghost predicate OneSignature(c: Crypto, p: Packet, i: nat, key: Blob, leaf: Blob, sighash: nat) {
    && i < |p.inputs| && i < |p.tx.ins| && |key| == 32 && |p.inputs[i].sigs| == 1 && p.inputs[i].sigs[0].Some?
    && var s := p.inputs[i].sigs[0].value;
       && s.key == key && s.leafHash == c.leafHash(leaf) && s.sighash == sighash && |s.signature| == 64
       && c.verifies(p.tx, Prevouts(p.inputs), i, s.signature, key, leaf, sighash)
  }

  /** The leaf check and the signer check together mean exactly one leaf and exactly one valid signature. */
  lemma OneSignerIff(c: Crypto, p: Packet, i: nat, pkScript: Blob, leaf: Blob, control: Blob, key: Blob, sighash: nat)
    requires i < |p.inputs|
    ensures ExactLeaf(c, p.inputs[i], pkScript, leaf, control, [key], sighash)
            && SignedExactlyBy(c, p, i, [key], leaf, sighash) <==>
            ShowsLeaf(c, p.inputs[i], pkScript, leaf, control, sighash) && OneSignature(c, p, i, key, leaf, sighash)
  {
    var sigs := p.inputs[i].sigs;
    if SignedExactlyBy(c, p, i, [key], leaf, sighash) {
      SignerCount(c, p, i, [key], leaf, sighash);
      assert KeySet([key]) == {key};
      assert |[key][0]| == 32 && GoodSig(c, p, i, sigs[0], leaf, sighash) && sigs[0].value.key in KeySet([key]);
    }
    if OneSignature(c, p, i, key, leaf, sighash) && p.inputs[i].utxo.Some? {
      assert GoodSig(c, p, i, sigs[0], leaf, sighash) && key in KeySet([key]) && HasKey(sigs, key);
    }
  }
}
