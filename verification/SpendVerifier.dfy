/** Checkpoint and Arkade transaction checks: what an accepted packet can be. */
module SpendVerifier {
  import opened Prelude
  import opened Psbt

  const ANCHOR := TxOut(0, [0x51, 0x02, 0x4e, 0x73])

  /** A reserved input; its transaction id is in display order. */
  datatype Reserved = Reserved(txid: Blob, vout: nat, value: i64, script: Blob)

  datatype Operation = Operation(
    amount: i64, fee: i64, change: i64, changeVout: Option<nat>, changeScript: Blob, destScript: Blob, tapscript: Blob)

  datatype Tree = Tree(pkScript: Blob, leaf: Blob, control: Blob)

  function Reverse(b: Blob): (r: Blob)
    ensures |r| == |b| && forall i :: 0 <= i < |b| ==> r[i] == b[|b| - 1 - i]
  {
    if b == [] then [] else Reverse(b[1..]) + [b[0]]
  }

  lemma ReverseTwice(a: Blob, b: Blob)
    ensures Reverse(a) == b <==> a == Reverse(b)
  {
    assert forall i :: 0 <= i < |a| ==> a[i] == Reverse(a)[|a| - 1 - i];
    assert forall i :: 0 <= i < |b| ==> b[i] == Reverse(b)[|b| - 1 - i];
  }

  // ---------- checkpoints ----------

  predicate SameOutpoint(o: OutPoint, r: Reserved) { Reverse(o.hash) == r.txid && o.index == r.vout % 0x1_0000_0000 }

  /** verifyUnsignedCheckpointPSBT. */
  predicate CheckpointOk(c: Crypto, p: Packet, r: Reserved, op: Operation, tree: Tree) {
    && p.tx.version == 3 && p.tx.lockTime == 0
    && |p.tx.ins| == 1 && |p.inputs| == 1
    && p.tx.ins[0].sequence == MAX_SEQUENCE && SameOutpoint(p.tx.ins[0].prev, r)
    && var x := p.inputs[0];
    && x.utxo.Some? && x.utxo.value.value == r.value
    && x.utxo.value.script == tree.pkScript && (r.script != [] ==> x.utxo.value.script == r.script)
    && op.tapscript != []
    && ExactLeaf(c, x, tree.pkScript, tree.leaf, tree.control, [c.firstKey(tree.leaf)], SIGHASH_DEFAULT)
    && x.sigs == []
    && c.checkpointDest(op.tapscript, tree.leaf).Some? && |p.tx.outs| == 2
    && p.tx.outs[0].script == c.checkpointDest(op.tapscript, tree.leaf).value.0 && p.tx.outs[0].value == r.value
    && p.tx.outs[1] == ANCHOR
  }

  /** The one checkpoint transaction of a reserved input. */
  function CheckpointTx(r: Reserved, dest: Blob): Tx {
    Tx(3, 0, [TxIn(OutPoint(Reverse(r.txid), r.vout % 0x1_0000_0000), MAX_SEQUENCE)], [TxOut(r.value, dest), ANCHOR])
  }

  /** What the one input of an unsigned checkpoint must show. */
  predicate CheckpointInput(c: Crypto, x: PInput, r: Reserved, tree: Tree) {
    && x.utxo == Some(TxOut(r.value, tree.pkScript)) && (r.script == [] || r.script == tree.pkScript) && x.sigs == []
    && ExactLeaf(c, x, tree.pkScript, tree.leaf, tree.control, [c.firstKey(tree.leaf)], SIGHASH_DEFAULT)
  }

  /** A checkpoint is accepted exactly when it is that transaction over the vault's own output, unsigned. */
  lemma CheckpointIff(c: Crypto, p: Packet, r: Reserved, op: Operation, tree: Tree)
    ensures var to := c.checkpointDest(op.tapscript, tree.leaf);
            CheckpointOk(c, p, r, op, tree) <==>
            && op.tapscript != [] && to.Some? && p.tx == CheckpointTx(r, to.value.0)
            && |p.inputs| == 1 && CheckpointInput(c, p.inputs[0], r, tree)
  {
    if |p.tx.ins| == 1 {
      ReverseTwice(p.tx.ins[0].prev.hash, r.txid);
      assert p.tx.ins == [p.tx.ins[0]];
    }
    if |p.tx.outs| == 2 { assert p.tx.outs == [p.tx.outs[0], p.tx.outs[1]]; }
  }

  /** verifySubmittedCheckpointPSBT: the unsigned checkpoint, signed by exactly the user and the Operator. */
  ghost predicate SubmittedOk(c: Crypto, p: Packet, r: Reserved, op: Operation, tree: Tree, operatorKey: Blob) {
    && |p.inputs| == 1 && CheckpointOk(c, Unsigned(p), r, op, tree)
    && var both := [c.firstKey(tree.leaf), operatorKey];
    && ExactLeaf(c, p.inputs[0], tree.pkScript, tree.leaf, tree.control, both, SIGHASH_DEFAULT)
    && SignedExactlyBy(c, p, 0, both, tree.leaf, SIGHASH_DEFAULT)
  }

  function Unsigned(p: Packet): Packet
    requires |p.inputs| == 1
  {
    p.(inputs := [p.inputs[0].(sigs := [])])
  }

  method VerifySubmitted(c: Crypto, p: Packet, r: Reserved, op: Operation, tree: Tree,
          operatorKey: Blob) returns (ok: bool)
    ensures ok <==> SubmittedOk(c, p, r, op, tree, operatorKey)
  {
    if |p.inputs| != 1 || !CheckpointOk(c, Unsigned(p), r, op, tree) { return false; }
    var both := [c.firstKey(tree.leaf), operatorKey];
    if !ExactLeaf(c, p.inputs[0], tree.pkScript, tree.leaf, tree.control, both, SIGHASH_DEFAULT) { return false; }
    ok := CheckSigners(c, p, 0, both, tree.leaf, SIGHASH_DEFAULT);
  }

  /** A submitted checkpoint is still the one transaction of its reserved input, and carries two
      signatures, or one if the Operator's key is the user's. */
  lemma SubmittedDetermined(c: Crypto, p: Packet, r: Reserved, op: Operation, tree: Tree, operatorKey: Blob)
    requires SubmittedOk(c, p, r, op, tree, operatorKey)
    ensures c.checkpointDest(op.tapscript, tree.leaf).Some?
    ensures p.tx == CheckpointTx(r, c.checkpointDest(op.tapscript, tree.leaf).value.0)
    ensures |p.inputs| == 1 && |p.inputs[0].sigs| == if c.firstKey(tree.leaf) == operatorKey then 1 else 2
  {
    CheckpointIff(c, Unsigned(p), r, op, tree);
    var user := c.firstKey(tree.leaf);
    SignerCount(c, p, 0, [user, operatorKey], tree.leaf, SIGHASH_DEFAULT);
    assert KeySet([user, operatorKey]) == {user, operatorKey};
  }

  // ---------- the Arkade transaction ----------

  function Total(inputs: seq<Reserved>): int {
    if inputs == [] then 0 else Total(inputs[..|inputs| - 1]) + inputs[|inputs| - 1].value
  }

  /** One transaction input per checkpoint, spending its output 0, in stored order. */
  function ArkIns(hashes: seq<Blob>): (r: seq<TxIn>)
    ensures |r| == |hashes| && forall i :: 0 <= i < |hashes| ==> r[i] == TxIn(OutPoint(hashes[i], 0), MAX_SEQUENCE)
  {
    if hashes == [] then [] else [TxIn(OutPoint(hashes[0], 0), MAX_SEQUENCE)] + ArkIns(hashes[1..])
  }

  /** Destination, optional change back to the vault, anchor. */
  function ArkOuts(op: Operation, tree: Tree): seq<TxOut> {
    [TxOut(op.amount, op.destScript)] + (if op.change == 0 then [] else [TxOut(op.change, tree.pkScript)]) + [ANCHOR]
  }

  function ArkTx(op: Operation, tree: Tree, hashes: seq<Blob>): Tx { Tx(3, 0, ArkIns(hashes), ArkOuts(op, tree)) }

  function Hashes(c: Crypto, txs: seq<Tx>): (r: seq<Blob>)
    ensures |r| == |txs| && forall i :: 0 <= i < |txs| ==> r[i] == c.txHash(txs[i])
  {
    if txs == [] then [] else [c.txHash(txs[0])] + Hashes(c, txs[1..])
  }

  function Txs(ps: seq<Packet>): (r: seq<Tx>)
    ensures |r| == |ps| && forall i :: 0 <= i < |ps| ==> r[i] == ps[i].tx
  {
    if ps == [] then [] else [ps[0].tx] + Txs(ps[1..])
  }

  predicate ChangeShape(op: Operation, tree: Tree) {
    if op.change == 0 then op.changeVout.None? && op.changeScript == []
    else op.changeVout == Some(1) && op.change >= DUST_SATS && op.changeScript == tree.pkScript
  }

  /** What an input of the packet must carry: its checkpoint's output, and the user's one signature. */
  ghost predicate InputOk(c: Crypto, p: Packet, i: nat, r: Reserved, dest: Blob, control: Blob, tree: Tree) {
    && i < |p.inputs| && p.inputs[i].utxo == Some(TxOut(r.value, dest)) && r.value >= 0
    && ExactLeaf(c, p.inputs[i], dest, tree.leaf, control, [c.firstKey(tree.leaf)], SIGHASH_DEFAULT)
    && SignedExactlyBy(c, p, i, [c.firstKey(tree.leaf)], tree.leaf, SIGHASH_DEFAULT)
  }

  ghost predicate InputsOk(c: Crypto, p: Packet, inputs: seq<Reserved>, n: nat, dest: Blob, control: Blob, tree: Tree)
    requires n <= |inputs|
  {
    forall i :: 0 <= i < n ==> InputOk(c, p, i, inputs[i], dest, control, tree)
  }

  /** The packet is the operation's transaction over these checkpoints, each input is in order, and
      the inputs pay for amount, change and exactly the reserved fee. */
  ghost predicate SpendOk(c: Crypto, p: Packet, op: Operation, inputs: seq<Reserved>, tree: Tree, cps: seq<Packet>) {
    && 1 <= |inputs| <= MAX_INPUTS && |cps| == |inputs| && |p.inputs| == |inputs|
    && var to := c.checkpointDest(op.tapscript, tree.leaf);
    && to.Some? && p.tx == ArkTx(op, tree, Hashes(c, Txs(cps)))
    && InputsOk(c, p, inputs, |inputs|, to.value.0, to.value.1, tree)
    && op.amount >= DUST_SATS && ChangeShape(op, tree) && op.fee >= 0
    && Total(inputs) == op.amount + op.change + op.fee <= MAX_UINT64
  }

  lemma {:induction false} TotalPrefix(inputs: seq<Reserved>, n: nat)
    requires n <= |inputs| && forall i :: 0 <= i < |inputs| ==> inputs[i].value >= 0
    ensures 0 <= Total(inputs[..n]) <= Total(inputs)
    decreases |inputs|
  {
    if n == |inputs| {
      assert inputs[..n] == inputs;
      if n > 0 { TotalPrefix(inputs[..n - 1], 0); }
    } else {
      var front := inputs[..|inputs| - 1];
      assert front[..n] == inputs[..n];
      TotalPrefix(front, n);
    }
  }

  ghost predicate InsOk(c: Crypto, p: Packet, cps: seq<Packet>, n: nat)
    requires n <= |cps| == |p.tx.ins|
  {
    forall i :: 0 <= i < n ==> p.tx.ins[i] == TxIn(OutPoint(c.txHash(cps[i].tx), 0), MAX_SEQUENCE)
  }

  lemma InsOkIff(c: Crypto, p: Packet, cps: seq<Packet>)
    requires |cps| == |p.tx.ins|
    ensures InsOk(c, p, cps, |cps|) <==> p.tx.ins == ArkIns(Hashes(c, Txs(cps)))
  {
    var want := ArkIns(Hashes(c, Txs(cps)));
    assert forall i :: 0 <= i < |cps| ==> want[i] == TxIn(OutPoint(c.txHash(cps[i].tx), 0), MAX_SEQUENCE);
  }

  method CheckInput(c: Crypto, p: Packet, i: nat, r: Reserved, dest: Blob, control: Blob, tree: Tree) returns (ok: bool)
    requires i < |p.inputs|
    ensures ok <==> InputOk(c, p, i, r, dest, control, tree)
  {
    var utxo := p.inputs[i].utxo;
    if utxo.None? || utxo.value.value < 0 || utxo.value.value != r.value || utxo.value.script != dest { return false; }
    var user := c.firstKey(tree.leaf);
    if !ExactLeaf(c, p.inputs[i], dest, tree.leaf, control, [user], SIGHASH_DEFAULT) { return false; }
    ok := CheckSigners(c, p, i, [user], tree.leaf, SIGHASH_DEFAULT);
  }

  /** The input loop of verifySpendPSBT. */
  method CheckInputs(c: Crypto, p: Packet, inputs: seq<Reserved>, dest: Blob, control: Blob, tree: Tree,
          cps: seq<Packet>)
    returns (sum: Option<nat>)
    requires |cps| == |inputs| == |p.inputs| == |p.tx.ins|
    ensures sum.Some? <==>
              && InsOk(c, p, cps, |inputs|) && InputsOk(c, p, inputs, |inputs|, dest, control, tree)
              && Total(inputs) <= MAX_UINT64
    ensures sum.Some? ==> sum.value == Total(inputs)
  {
    var total := 0;
    var i := 0;
    while i < |inputs|
      invariant 0 <= i <= |inputs| && total == Total(inputs[..i]) && 0 <= total <= MAX_UINT64
      invariant InsOk(c, p, cps, i) && InputsOk(c, p, inputs, i, dest, control, tree)
    {
      if p.tx.ins[i].sequence != MAX_SEQUENCE { return None; }
      if p.tx.ins[i].prev != OutPoint(c.txHash(cps[i].tx), 0) { return None; }
      var fine := CheckInput(c, p, i, inputs[i], dest, control, tree);
      if !fine { return None; }
      assert inputs[..i + 1][..i] == inputs[..i];
      if inputs[i].value > MAX_UINT64 - total {
        Overflows(c, p, inputs, dest, control, tree, i + 1);
        return None;
      }
      total := total + inputs[i].value;
      i := i + 1;
    }
    assert inputs[..i] == inputs;
    return Some(total);
  }

  lemma Overflows(c: Crypto, p: Packet, inputs: seq<Reserved>, dest: Blob, control: Blob, tree: Tree, n: nat)
    requires n <= |inputs| && Total(inputs[..n]) > MAX_UINT64
    ensures !(InputsOk(c, p, inputs, |inputs|, dest, control, tree) && Total(inputs) <= MAX_UINT64)
  {
    if InputsOk(c, p, inputs, |inputs|, dest, control, tree) { TotalPrefix(inputs, n); }
  }

  /** verifySpendPSBT. */
  method VerifySpend(c: Crypto, p: Packet, op: Operation, inputs: seq<Reserved>, tree: Tree,
          cps: seq<Packet>) returns (ok: bool)
    ensures ok <==> SpendOk(c, p, op, inputs, tree, cps)
  {
    if |inputs| == 0 || |inputs| > MAX_INPUTS || |cps| != |inputs| { return false; }
    if p.tx.version != 3 || p.tx.lockTime != 0 { return false; }
    if |p.tx.ins| != |inputs| || |p.inputs| != |inputs| { return false; }
    var to := c.checkpointDest(op.tapscript, tree.leaf);
    if to.None? { return false; }
    InsOkIff(c, p, cps);
    var sum := CheckInputs(c, p, inputs, to.value.0, to.value.1, tree, cps);
    if sum.None? { return false; }
    var outs := CheckOutputs(p, op, tree);
    if outs.None? { return false; }
    return op.fee >= 0 && op.fee <= MAX_UINT64 - outs.value && sum.value == outs.value + op.fee;
  }

  /** The output half of verifySpendPSBT. */
  method CheckOutputs(p: Packet, op: Operation, tree: Tree) returns (sum: Option<nat>)
    ensures sum.Some? <==> p.tx.outs == ArkOuts(op, tree) && op.amount >= DUST_SATS && ChangeShape(op, tree)
    ensures sum.Some? ==> sum.value == op.amount + op.change <= MAX_UINT64
  {
    var outs := p.tx.outs;
    if |outs| != (if op.change > 0 then 3 else 2) { return None; }
    if outs[0].value != op.amount || outs[0].script != op.destScript || outs[0].value < DUST_SATS { return None; }
    if op.change == 0 {
      if op.changeVout.Some? || op.changeScript != [] { return None; }
    } else {
      if op.changeVout != Some(1) || op.change < DUST_SATS { return None; }
      if outs[1].script != tree.pkScript || outs[1].script != op.changeScript || outs[1].value != op.change {
        return None;
      }
    }
    if outs[|outs| - 1] != ANCHOR { return None; }
    assert outs == if op.change == 0 then [outs[0], outs[1]] else [outs[0], outs[1], outs[2]];
    return Some(op.amount + op.change);
  }

  // ---------- what acceptance fixes ----------

  function CheckpointTxs(inputs: seq<Reserved>, dest: Blob): (r: seq<Tx>)
    ensures |r| == |inputs| && forall i :: 0 <= i < |inputs| ==> r[i] == CheckpointTx(inputs[i], dest)
  {
    if inputs == [] then [] else [CheckpointTx(inputs[0], dest)] + CheckpointTxs(inputs[1..], dest)
  }

  ghost predicate CheckpointsOk(c: Crypto, cps: seq<Packet>, inputs: seq<Reserved>, op: Operation, tree: Tree) {
    |cps| == |inputs| && forall i :: 0 <= i < |cps| ==> CheckpointOk(c, cps[i], inputs[i], op, tree)
  }

  /** Nothing in the submitted packets is free: the unsigned transaction is a function of the reserved
      operation, its inputs and the vault's script tree. */
  lemma SpendDetermined(c: Crypto, p: Packet, op: Operation, inputs: seq<Reserved>, tree: Tree, cps: seq<Packet>)
    requires CheckpointsOk(c, cps, inputs, op, tree) && SpendOk(c, p, op, inputs, tree, cps)
    ensures p.tx == ArkTx(op, tree, Hashes(c, CheckpointTxs(inputs, c.checkpointDest(op.tapscript, tree.leaf).value.0)))
  {
    var dest := c.checkpointDest(op.tapscript, tree.leaf).value.0;
    forall i | 0 <= i < |cps| ensures Txs(cps)[i] == CheckpointTxs(inputs, dest)[i] {
      CheckpointIff(c, cps[i], inputs[i], op, tree);
    }
    assert Txs(cps) == CheckpointTxs(inputs, dest);
  }

  function PrevoutTotal(inputs: seq<PInput>): int {
    if inputs == [] then 0
    else
      var last := inputs[|inputs| - 1].utxo;
      PrevoutTotal(inputs[..|inputs| - 1]) + if last.Some? then last.value.value else 0
  }

  function OutTotal(outs: seq<TxOut>): int { if outs == [] then 0 else outs[0].value + OutTotal(outs[1..]) }

  lemma {:induction false} PrevoutsAreReserved(xs: seq<PInput>, inputs: seq<Reserved>)
    requires |xs| == |inputs| && forall i :: 0 <= i < |xs| ==>
             xs[i].utxo.Some? && xs[i].utxo.value.value == inputs[i].value
    ensures PrevoutTotal(xs) == Total(inputs)
    decreases |xs|
  {
    if xs != [] { PrevoutsAreReserved(xs[..|xs| - 1], inputs[..|xs| - 1]); }
  }

  /** An accepted packet spends exactly the reserved fee. */
  lemma PaysReservedFee(c: Crypto, p: Packet, op: Operation, inputs: seq<Reserved>, tree: Tree, cps: seq<Packet>)
    requires SpendOk(c, p, op, inputs, tree, cps)
    ensures PrevoutTotal(p.inputs) - OutTotal(p.tx.outs) == op.fee
  {
    forall i | 0 <= i < |inputs| ensures p.inputs[i].utxo.Some? && p.inputs[i].utxo.value.value == inputs[i].value {
      assert InputOk(c, p, i, inputs[i], c.checkpointDest(op.tapscript, tree.leaf).value.0,
        c.checkpointDest(op.tapscript, tree.leaf).value.1, tree);
    }
    PrevoutsAreReserved(p.inputs, inputs);
    var outs := ArkOuts(op, tree);
    assert outs == if op.change == 0 then [TxOut(op.amount, op.destScript), ANCHOR]
      else [TxOut(op.amount, op.destScript), TxOut(op.change, tree.pkScript), ANCHOR];
    assert outs[1..] == if op.change == 0 then [ANCHOR] else [TxOut(op.change, tree.pkScript), ANCHOR];
    assert OutTotal([ANCHOR]) == 0;
    if op.change != 0 { assert outs[1..][1..] == [ANCHOR]; }
  }

  // ---------- acceptance read off the packet itself ----------

  /** The outputs one by one: the payment, the change if there is any, and the empty anchor. */
  predicate PaysOut(outs: seq<TxOut>, op: Operation, tree: Tree) {
    && |outs| == (if op.change > 0 then 3 else 2)
    && outs[0].value == op.amount && outs[0].script == op.destScript
    && (op.change > 0 ==> outs[1].value == op.change && outs[1].script == tree.pkScript)
    && outs[|outs| - 1].value == 0 && outs[|outs| - 1].script == [0x51, 0x02, 0x4e, 0x73]
  }

  /** Input i spends output 0 of checkpoint i and cannot be replaced. */
  predicate SpendsCheckpoints(c: Crypto, ins: seq<TxIn>, cps: seq<Packet>) {
    |ins| == |cps| && forall i :: 0 <= i < |ins| ==>
      ins[i].prev.hash == c.txHash(cps[i].tx) && ins[i].prev.index == 0 && ins[i].sequence == 0xffff_ffff
  }

  /** The operation promises change of at least dust to the vault as output 1, or none. */
  predicate PromisesChange(op: Operation, tree: Tree) {
    || (op.change == 0 && op.changeVout == None && op.changeScript == [])
    || (op.change >= 330 && op.changeVout == Some(1) && op.changeScript == tree.pkScript)
  }

  lemma PaysOutIff(outs: seq<TxOut>, op: Operation, tree: Tree)
    requires op.change >= 0
    ensures PaysOut(outs, op, tree) <==> outs == ArkOuts(op, tree)
  {
    if PaysOut(outs, op, tree) {
      assert outs == if op.change > 0 then [outs[0], outs[1], outs[2]] else [outs[0], outs[1]];
    }
  }

  lemma SpendsCheckpointsIff(c: Crypto, ins: seq<TxIn>, cps: seq<Packet>)
    ensures SpendsCheckpoints(c, ins, cps) <==> ins == ArkIns(Hashes(c, Txs(cps)))
  {
    var want := ArkIns(Hashes(c, Txs(cps)));
    assert forall i :: 0 <= i < |cps| ==> want[i] == TxIn(OutPoint(c.txHash(cps[i].tx), 0), MAX_SEQUENCE);
  }

  lemma PaidTotal(outs: seq<TxOut>, op: Operation, tree: Tree)
    requires PaysOut(outs, op, tree) && op.change >= 0
    ensures OutTotal(outs) == op.amount + op.change
  {
    var last := outs[|outs| - 1];
    assert OutTotal([last]) == 0 by { assert [last][1..] == []; }
    if op.change > 0 {
      assert outs[1..] == [outs[1], last] && outs[1..][1..] == [last];
    } else {
      assert outs[1..] == [last];
    }
  }

  lemma InputsTotal(c: Crypto, p: Packet, inputs: seq<Reserved>, dest: Blob, control: Blob, tree: Tree)
    requires |p.inputs| == |inputs| && InputsOk(c, p, inputs, |inputs|, dest, control, tree)
    ensures PrevoutTotal(p.inputs) == Total(inputs)
  {
    forall i | 0 <= i < |inputs| ensures p.inputs[i].utxo.Some? && p.inputs[i].utxo.value.value == inputs[i].value {
      assert InputOk(c, p, i, inputs[i], dest, control, tree);
    }
    PrevoutsAreReserved(p.inputs, inputs);
  }

  /** A packet is accepted exactly when its own fields pay the destination the amount and the vault the
      change, spend the checkpoints in order under the user's one signature each, and keep nothing but the
      reserved fee. */
  lemma SpendOkIff(c: Crypto, p: Packet, op: Operation, inputs: seq<Reserved>, tree: Tree, cps: seq<Packet>)
    ensures var to := c.checkpointDest(op.tapscript, tree.leaf);
            SpendOk(c, p, op, inputs, tree, cps) <==>
            && 1 <= |inputs| <= 50 && |cps| == |inputs| == |p.inputs|
            && p.tx.version == 3 && p.tx.lockTime == 0
            && SpendsCheckpoints(c, p.tx.ins, cps) && PaysOut(p.tx.outs, op, tree)
            && to.Some? && InputsOk(c, p, inputs, |inputs|, to.value.0, to.value.1, tree)
            && op.amount >= 330 && PromisesChange(op, tree) && op.fee >= 0
            && PrevoutTotal(p.inputs) == OutTotal(p.tx.outs) + op.fee <= 0xffff_ffff_ffff_ffff
  {
    var to := c.checkpointDest(op.tapscript, tree.leaf);
    SpendsCheckpointsIff(c, p.tx.ins, cps);
    if op.change >= 0 {
      PaysOutIff(p.tx.outs, op, tree);
      if PaysOut(p.tx.outs, op, tree) { PaidTotal(p.tx.outs, op, tree); }
    }
    if to.Some? && |p.inputs| == |inputs| && InputsOk(c, p, inputs, |inputs|, to.value.0, to.value.1, tree) {
      InputsTotal(c, p, inputs, to.value.0, to.value.1, tree);
    }
  }

  /** A checkpoint moves the whole value of its reserved outpoint to the checkpoint script and pays no fee. */
  lemma CheckpointMovesAll(c: Crypto, p: Packet, r: Reserved, op: Operation, tree: Tree)
    requires CheckpointOk(c, p, r, op, tree)
    ensures |p.tx.ins| == |p.inputs| == 1 && |p.tx.outs| == 2 && p.inputs[0].utxo.Some?
    ensures |p.tx.ins[0].prev.hash| == |r.txid| && p.tx.ins[0].prev.index == r.vout % 0x1_0000_0000
    ensures forall i :: 0 <= i < |r.txid| ==> p.tx.ins[0].prev.hash[i] == r.txid[|r.txid| - 1 - i]
    ensures p.inputs[0].utxo.value.value == p.tx.outs[0].value == r.value
    ensures p.inputs[0].utxo.value.script == tree.pkScript && p.inputs[0].sigs == []
    ensures Some(p.tx.outs[0].script) ==
            match c.checkpointDest(op.tapscript, tree.leaf) case Some(to) => Some(to.0) case None => None
    ensures p.tx.outs[1].value == 0 && p.tx.outs[1].script == [0x51, 0x02, 0x4e, 0x73]
    ensures PrevoutTotal(p.inputs) == OutTotal(p.tx.outs)
  {
    var hash := p.tx.ins[0].prev.hash;
    assert forall i :: 0 <= i < |hash| ==> r.txid[|hash| - 1 - i] == hash[i];
    assert p.inputs[..0] == [] && p.tx.outs[1..] == [p.tx.outs[1]] && p.tx.outs[1..][1..] == [];
    assert OutTotal(p.tx.outs[1..]) == 0;
  }

  /** What input i of an accepted packet claims to spend is really output 0 of checkpoint i, which is also
      the outpoint it names: claimed value and script are not the client's word. */
  lemma PrevoutsAreReal(
      c: Crypto, p: Packet, op: Operation, inputs: seq<Reserved>, tree: Tree, cps: seq<Packet>, i: nat)
    requires CheckpointsOk(c, cps, inputs, op, tree) && SpendOk(c, p, op, inputs, tree, cps) && i < |cps|
    ensures i < |p.inputs| == |p.tx.ins| && |cps[i].tx.outs| == 2
    ensures p.inputs[i].utxo == Some(cps[i].tx.outs[0])
    ensures p.tx.ins[i].prev.hash == c.txHash(cps[i].tx) && p.tx.ins[i].prev.index == 0
  {
    var to := c.checkpointDest(op.tapscript, tree.leaf).value;
    assert InputOk(c, p, i, inputs[i], to.0, to.1, tree);
    assert CheckpointOk(c, cps[i], inputs[i], op, tree);
    SpendsCheckpointsIff(c, p.tx.ins, cps);
  }

  /** Input i of an accepted packet shows the vault's leaf under the checkpoint script and carries exactly one
      signature, by the user, valid on this very transaction. */
  lemma InputOkIff(c: Crypto, p: Packet, i: nat, r: Reserved, dest: Blob, control: Blob, tree: Tree)
    ensures InputOk(c, p, i, r, dest, control, tree) <==>
            && i < |p.inputs| && p.inputs[i].utxo == Some(TxOut(r.value, dest)) && r.value >= 0
            && ShowsLeaf(c, p.inputs[i], dest, tree.leaf, control, 0)
            && OneSignature(c, p, i, c.firstKey(tree.leaf), tree.leaf, 0)
  {
    if i < |p.inputs| { OneSignerIff(c, p, i, dest, tree.leaf, control, c.firstKey(tree.leaf), SIGHASH_DEFAULT); }
  }
}
