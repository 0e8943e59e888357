/** Signature-delta guards: what a signing stage can add to a packet. */
module SignatureGuards {
  import opened Prelude
  import opened Psbt

  function WithSigs(p: Packet, i: nat, sigs: seq<Option<Sig>>): Packet
    requires i < |p.inputs|
  {
    p.(inputs := p.inputs[i := p.inputs[i].(sigs := sigs)])
  }

  function AddSig(p: Packet, i: nat, s: Sig): Packet
    requires i < |p.inputs|
  {
    WithSigs(p, i, p.inputs[i].sigs + [Some(s)])
  }

  // ---------- one remote signer ----------

  /** A signature that counts as the signer's: right key, leaf and sighash, valid on the submitted packet. */
  predicate Counts(c: Crypto, submitted: Packet, s: Option<Sig>, key: Blob, leaf: Blob) {
    && s.Some? && s.value.key == key && s.value.leafHash == c.leafHash(leaf) && s.value.sighash == SIGHASH_DEFAULT
    && Verifies(c, submitted, 0, s.value.signature, key, leaf, SIGHASH_DEFAULT)
  }

  /** Returned entries that are not a first return of a submitted one. */
  function Extras(before: seq<Option<Sig>>, after: seq<Option<Sig>>, matched: set<Sig>): seq<Option<Sig>> {
    if after == [] then []
    else if after[0].Some? && after[0] in before && after[0].value !in matched
    then Extras(before, after[1..], matched + {after[0].value})
    else [after[0]] + Extras(before, after[1..], matched)
  }

  function Counting(c: Crypto, submitted: Packet, sigs: seq<Option<Sig>>, key: Blob, leaf: Blob): seq<Sig> {
    if sigs == [] then []
    else
      var rest := Counting(c, submitted, sigs[1..], key, leaf);
      if Counts(c, submitted, sigs[0], key, leaf) then [sigs[0].value] + rest else rest
  }

  predicate OneInput(p: Packet) { |p.inputs| == 1 && |p.tx.ins| == 1 }

  /** The signer's one new signature, if there is exactly one. */
  function NewSig(c: Crypto, submitted: Packet, response: Packet, key: Blob): Option<Sig> {
    if !OneInput(submitted) || !OneInput(response) || |key| != 32 then None
    else
      var x := submitted.inputs[0];
      if x.utxo.None? || TheLeaf(x).None? then None
      else
        var found := Counting(c, submitted, Extras(x.sigs, response.inputs[0].sigs, {}), key, TheLeaf(x).value.script);
        if |found| == 1 then Some(found[0]) else None
  }

  /** indexOriginalSig. */
  method IndexOriginal(before: seq<Option<Sig>>, s: Option<Sig>) returns (i: int)
    ensures i == -1 <==> s.None? || s !in before
    ensures i != -1 ==> 0 <= i < |before| && before[i] == s && forall k :: 0 <= k < i ==> before[k] != s
  {
    if s.None? { return -1; }
    for n := 0 to |before|
      invariant forall k :: 0 <= k < n ==> before[k] != s
    {
      if before[n] == s { return n; }
    }
    return -1;
  }

  /** The flag at a value's first position says whether the value was matched. */
  ghost predicate Flags(before: seq<Option<Sig>>, matched: seq<bool>, values: set<Sig>) {
    && |matched| == |before|
    && forall i :: 0 <= i < |before| && before[i].Some? && (forall k :: 0 <= k < i ==> before[k] != before[i]) ==>
      (matched[i] <==> before[i].value in values)
  }

  method CollectExtras(before: seq<Option<Sig>>, after: seq<Option<Sig>>) returns (extras: seq<Option<Sig>>)
    ensures extras == Extras(before, after, {})
  {
    var matched := new bool[|before|](_ => false);
    ghost var values: set<Sig> := {};
    extras := [];
    var n := 0;
    assert after[0..] == after;
    while n < |after|
      invariant 0 <= n <= |after| && Flags(before, matched[..], values)
      invariant Extras(before, after, {}) == extras + Extras(before, after[n..], values)
    {
      var s := after[n];
      assert after[n..][0] == s && after[n..][1..] == after[n + 1..];
      var i := IndexOriginal(before, s);
      if i != -1 && !matched[i] {
        matched[i] := true;
        values := values + {s.value};
      } else {
        assert extras + ([s] + Extras(before, after[n + 1..], values)) ==
          extras + [s] + Extras(before, after[n + 1..], values);
        extras := extras + [s];
      }
      n := n + 1;
    }
    assert after[n..] == [] && extras + [] == extras;
  }

  /** The only counting signature; a second one is an error. */
  method TheOne(c: Crypto, submitted: Packet, extras: seq<Option<Sig>>, key: Blob, leaf: Blob) returns (r: Option<Sig>)
    ensures var found := Counting(c, submitted, extras, key, leaf); r == if |found| == 1 then Some(found[0]) else None
  {
    r := None;
    var n := 0;
    assert extras[0..] == extras;
    while n < |extras|
      invariant 0 <= n <= |extras|
      invariant Counting(c, submitted, extras, key, leaf) ==
                (if r.None? then [] else [r.value]) + Counting(c, submitted, extras[n..], key, leaf)
    {
      assert extras[n..][1..] == extras[n + 1..];
      if Counts(c, submitted, extras[n], key, leaf) {
        if r.Some? { return None; }
        r := extras[n];
      }
      n := n + 1;
    }
  }

  /** extractVerifiedSignerSig. */
  method ExtractNewSig(c: Crypto, submitted: Packet, response: Packet, key: Blob) returns (r: Option<Sig>)
    ensures r == NewSig(c, submitted, response, key)
  {
    if !OneInput(submitted) || !OneInput(response) || |key| != 32 { return None; }
    var x := submitted.inputs[0];
    if x.utxo.None? || TheLeaf(x).None? { return None; }
    var leaf := TheLeaf(x).value.script;
    var extras := CollectExtras(x.sigs, response.inputs[0].sigs);
    r := TheOne(c, submitted, extras, key, leaf);
  }

  /** signExactStage, for whatever packet the signer returns. */
  function Stage(c: Crypto, submitted: Packet, response: Packet, key: Blob): Option<Packet> {
    if !c.prevoutOk(submitted) then None
    else
      match NewSig(c, submitted, response, key)
      case None => None
      case Some(s) => if |submitted.inputs| == 1 then Some(AddSig(submitted, 0, s)) else None
  }

  lemma {:induction false} CountingIs(c: Crypto, submitted: Packet, sigs: seq<Option<Sig>>, key: Blob, leaf: Blob,
          s: Sig)
    requires s in Counting(c, submitted, sigs, key, leaf)
    ensures Some(s) in sigs && Counts(c, submitted, Some(s), key, leaf)
  {
    if !(Counts(c, submitted, sigs[0], key, leaf) && sigs[0].value == s) {
      CountingIs(c, submitted, sigs[1..], key, leaf, s); }
  }

  lemma {:induction false} ExtrasReturned(before: seq<Option<Sig>>, after: seq<Option<Sig>>, matched: set<Sig>,
          s: Option<Sig>)
    requires s in Extras(before, after, matched)
    ensures s in after
    decreases |after|
  {
    if s != after[0] || (after[0].Some? && after[0] in before && after[0].value !in matched) {
      if after[0].Some? && after[0] in before && after[0].value !in matched {
        ExtrasReturned(before, after[1..], matched + {after[0].value}, s);
      } else {
        ExtrasReturned(before, after[1..], matched, s);
      }
    }
  }

  /** Whatever comes back, a successful stage is the submitted packet with one returned signature
      appended, and that signature is valid on the submitted packet under the expected key. */
  lemma StageAddsOneValid(c: Crypto, submitted: Packet, response: Packet, key: Blob)
    requires Stage(c, submitted, response, key).Some?
    ensures c.prevoutOk(submitted) && OneInput(submitted) && OneInput(response) && TheLeaf(submitted.inputs[0]).Some?
    ensures exists s ::
              && Stage(c, submitted, response, key) == Some(AddSig(submitted, 0, s))
              && Some(s) in response.inputs[0].sigs
              && Counts(c, submitted, Some(s), key, TheLeaf(submitted.inputs[0]).value.script)
  {
    var x := submitted.inputs[0];
    var s := NewSig(c, submitted, response, key).value;
    var extras := Extras(x.sigs, response.inputs[0].sigs, {});
    assert s in Counting(c, submitted, extras, key, TheLeaf(x).value.script);
    CountingIs(c, submitted, extras, key, TheLeaf(x).value.script, s);
    ExtrasReturned(x.sigs, response.inputs[0].sigs, {}, Some(s));
  }

  predicate NoRepeats(sigs: seq<Option<Sig>>) {
    forall i, j :: 0 <= i < j < |sigs| && sigs[i].Some? ==> sigs[i] != sigs[j]
  }

  lemma {:induction false} ExtrasOfAppend(before: seq<Option<Sig>>, after: seq<Option<Sig>>, s: Sig, matched: set<Sig>)
    requires NoRepeats(after) && (forall i :: 0 <= i < |after| ==>
             after[i].Some? && after[i] in before && after[i].value !in matched)
    requires Some(s) in before ==> Some(s) in after || s in matched
    ensures Extras(before, after + [Some(s)], matched) == [Some(s)]
    decreases |after|
  {
    if after == [] {
      assert after + [Some(s)] == [Some(s)] && [Some(s)][1..] == [];
    } else {
      assert (after + [Some(s)])[1..] == after[1..] + [Some(s)];
      forall i | 0 <= i < |after[1..]| ensures after[1..][i] != after[0] { assert after[1..][i] == after[i + 1]; }
      assert after == [after[0]] + after[1..];
      ExtrasOfAppend(before, after[1..], s, matched + {after[0].value});
    }
  }

  /** A signer that appends one counting signature to what it was given succeeds. */
  lemma HonestStage(c: Crypto, submitted: Packet, s: Sig, key: Blob)
    requires c.prevoutOk(submitted)
    requires OneInput(submitted) && |key| == 32 && submitted.inputs[0].utxo.Some? && TheLeaf(submitted.inputs[0]).Some?
    requires Counts(c, submitted, Some(s), key, TheLeaf(submitted.inputs[0]).value.script)
    requires NoRepeats(submitted.inputs[0].sigs) && forall i :: 0 <= i < |submitted.inputs[0].sigs| ==>
             submitted.inputs[0].sigs[i].Some?
    ensures Stage(c, submitted, AddSig(submitted, 0, s), key) == Some(AddSig(submitted, 0, s))
  {
    var before := submitted.inputs[0].sigs;
    ExtrasOfAppend(before, before, s, {});
    assert [Some(s)][1..] == [];
    assert Counting(c, submitted, [Some(s)], key, TheLeaf(submitted.inputs[0]).value.script) == [s];
  }

  // ---------- the service's own key on several inputs ----------

  /** `after` is `before` with one signature appended to each of the inputs `at`, and nothing else. */
  ghost predicate Adds(before: Packet, after: Packet, at: set<int>, sig: int -> Sig) {
    && after.tx == before.tx && after.extra == before.extra && |after.inputs| == |before.inputs|
    && forall i :: 0 <= i < |before.inputs| ==>
      after.inputs[i] == if i in at then before.inputs[i].(sigs := before.inputs[i].sigs + [Some(sig(i))])
        else before.inputs[i]
  }

  lemma AddsOne(before: Packet, after: Packet, at: set<int>, sig: int -> Sig, i: nat)
    requires Adds(before, after, at, sig) && i < |before.inputs| && i !in at
    ensures Adds(before, AddSig(after, i, sig(i)), at + {i}, sig)
  {
  }

  /** The key's signature on each input, from its raw bytes. */
  function OwnSig(c: Crypto, key: Blob, leaf: Blob, sighash: nat, raw: int -> Option<Blob>): int -> Sig {
    i => Sig(key, c.leafHash(leaf), if raw(i).Some? then raw(i).value else [], sighash)
  }

  /** The input takes the leaf and sighash, and the key's signature exists and is valid on the submitted packet. */
  predicate Signable(c: Crypto, p: Packet, i: int, key: Blob, leaf: Blob, sighash: nat, raw: int -> Option<Blob>) {
    && 0 <= i < |p.inputs| && TheLeaf(p.inputs[i]).Some? && TheLeaf(p.inputs[i]).value.script == leaf &&
       p.inputs[i].sighash == sighash
    && raw(i).Some? && Verifies(c, p, i, raw(i).value, key, leaf, sighash)
  }

  /** Signs one input and checks the signature on the submitted packet. */
  method SignInput(c: Crypto, p: Packet, i: int, key: Blob, leaf: Blob, sighash: nat,
          raw: int -> Option<Blob>) returns (s: Option<Sig>)
    requires 0 <= i < |p.inputs|
    ensures s.Some? <==> Signable(c, p, i, key, leaf, sighash, raw)
    ensures s.Some? ==> s.value == OwnSig(c, key, leaf, sighash, raw)(i)
  {
    var x := p.inputs[i];
    if TheLeaf(x).None? || TheLeaf(x).value.script != leaf || x.sighash != sighash { return None; }
    if raw(i).None? || !Verifies(c, p, i, raw(i).value, key, leaf, sighash) { return None; }
    return Some(Sig(key, c.leafHash(leaf), raw(i).value, sighash));
  }

  function UpTo(n: nat): (r: set<int>)
    ensures forall i :: i in r <==> 0 <= i < n
  {
    if n == 0 then {} else UpTo(n - 1) + {n - 1}
  }

  /** signExactArkStageWithSighash: `own` is the public key of the private key in hand, `raw(i)` its
      signature on input i. */
  method SignEveryInput(c: Crypto, submitted: Packet, own: Blob, key: Blob, leaf: Blob, sighash: nat,
          raw: int -> Option<Blob>)
    returns (r: Option<Packet>)
    requires |submitted.inputs| == |submitted.tx.ins|
    ensures r.Some? <==>
              && |key| == 32 && own == key && submitted.inputs != [] && leaf != []
              && forall i :: 0 <= i < |submitted.inputs| ==> Signable(c, submitted, i, key, leaf, sighash, raw)
    ensures r.Some? ==> Adds(submitted, r.value, UpTo(|submitted.inputs|), OwnSig(c, key, leaf, sighash, raw))
  {
    if |key| != 32 || own != key || submitted.inputs == [] || leaf == [] { return None; }
    var out := submitted;
    var n := 0;
    ghost var sig := OwnSig(c, key, leaf, sighash, raw);
    while n < |submitted.inputs|
      invariant 0 <= n <= |submitted.inputs|
      invariant forall i :: 0 <= i < n ==> Signable(c, submitted, i, key, leaf, sighash, raw)
      invariant Adds(submitted, out, UpTo(n), sig)
    {
      var s := SignInput(c, submitted, n, key, leaf, sighash, raw);
      if s.None? { return None; }
      AddsOne(submitted, out, UpTo(n), sig, n);
      out := AddSig(out, n, s.value);
      n := n + 1;
    }
    return Some(out);
  }

  /** No signature of the key is there yet. */
  predicate Unsigned(p: Packet, i: int, key: Blob)
    requires 0 <= i < |p.inputs|
  {
    forall k :: 0 <= k < |p.inputs[i].sigs| && p.inputs[i].sigs[k].Some? ==> p.inputs[i].sigs[k].value.key != key
  }

  predicate NamedOk(c: Crypto, p: Packet, at: int, key: Blob, leaf: Blob, sighash: nat, raw: int -> Option<Blob>) {
    0 <= at < |p.inputs| && Unsigned(p, at, key) && Signable(c, p, at, key, leaf, sighash, raw)
  }

  function Named(indexes: seq<int>): set<int> { set x | x in indexes }

  /** Different indexes, each of an input that can be signed. */
  ghost predicate AllNamed(c: Crypto, p: Packet, indexes: seq<int>, key: Blob, leaf: Blob, sighash: nat,
          raw: int -> Option<Blob>) {
    && (forall j, k :: 0 <= j < k < |indexes| ==> indexes[j] != indexes[k])
    && (forall x :: x in indexes ==> NamedOk(c, p, x, key, leaf, sighash, raw))
  }

  lemma AllNamedAppend(c: Crypto, p: Packet, indexes: seq<int>, n: nat, key: Blob, leaf: Blob, sighash: nat,
          raw: int -> Option<Blob>)
    requires n < |indexes|
    ensures AllNamed(c, p, indexes[..n + 1], key, leaf, sighash, raw) <==>
            && AllNamed(c, p, indexes[..n], key, leaf, sighash, raw)
            && indexes[n] !in Named(indexes[..n]) && NamedOk(c, p, indexes[n], key, leaf, sighash, raw)
    ensures AllNamed(c, p, indexes, key, leaf, sighash, raw) ==>
            AllNamed(c, p, indexes[..n + 1], key, leaf, sighash, raw)
    ensures Named(indexes[..n + 1]) == Named(indexes[..n]) + {indexes[n]}
  {
    var more := indexes[..n + 1];
    assert more == indexes[..n] + [indexes[n]];
    assert more[n] == indexes[n] && forall k :: 0 <= k < n ==> more[k] == indexes[..n][k];
  }

  /** signExactVaultBoardStage. */
  method SignNamedInputs(c: Crypto, submitted: Packet, own: Blob, key: Blob, leaf: Blob, indexes: seq<int>,
          sighash: nat, raw: int -> Option<Blob>)
    returns (r: Option<Packet>)
    requires |submitted.inputs| == |submitted.tx.ins|
    ensures r.Some? <==>
              && |key| == 32 && own == key && leaf != [] && indexes != []
              && AllNamed(c, submitted, indexes, key, leaf, sighash, raw)
    ensures r.Some? ==> Adds(submitted, r.value, Named(indexes), OwnSig(c, key, leaf, sighash, raw))
  {
    if |key| != 32 || own != key || leaf == [] || indexes == [] { return None; }
    var out := submitted;
    var seen: set<int> := {};
    var n := 0;
    ghost var sig := OwnSig(c, key, leaf, sighash, raw);
    while n < |indexes|
      invariant 0 <= n <= |indexes| && seen == Named(indexes[..n])
      invariant AllNamed(c, submitted, indexes[..n], key, leaf, sighash, raw)
      invariant Adds(submitted, out, seen, sig)
    {
      var at := indexes[n];
      AllNamedAppend(c, submitted, indexes, n, key, leaf, sighash, raw);
      if at < 0 || at >= |submitted.inputs| || at in seen || !Unsigned(submitted, at, key) { return None; }
      var s := SignInput(c, submitted, at, key, leaf, sighash, raw);
      if s.None? { return None; }
      AddsOne(submitted, out, seen, sig, at);
      out := AddSig(out, at, s.value);
      seen := seen + {at};
      n := n + 1;
    }
    assert indexes[..n] == indexes;
    return Some(out);
  }
}
