/** Every operation the coin selection can produce has an acceptable packet. */
module SpendSatisfiable {
  import opened Prelude
  import opened Psbt
  import opened SpendVerifier
  import CS = CoinSelection

  type Signer = (Tx, seq<Option<TxOut>>, nat) -> Blob

  /** What the wallet needs: the vault's leaf is committed by both scripts, its first key is a proper
      key, and `sign` signs for it. */
  ghost predicate CanSign(c: Crypto, tree: Tree, tapscript: Blob, sign: Signer) {
    && tapscript != [] && c.checkpointDest(tapscript, tree.leaf).Some?
    && var (dest, control) := c.checkpointDest(tapscript, tree.leaf).value;
    && c.controlOk(dest, tree.leaf, control) && c.controlOk(tree.pkScript, tree.leaf, tree.control)
    && |c.firstKey(tree.leaf)| == 32
    && forall tx: Tx, prevs, i: nat :: i < |tx.ins| == |prevs| && AllPresent(prevs) ==>
         && |sign(tx, prevs, i)| == 64
         && c.verifies(tx, prevs, i, sign(tx, prevs, i), c.firstKey(tree.leaf), tree.leaf, SIGHASH_DEFAULT)
  }

  predicate AllPresent(prevs: seq<Option<TxOut>>) { forall k :: 0 <= k < |prevs| ==> prevs[k].Some? }

  // ---------- packets ----------

  function MakeCheckpoint(r: Reserved, dest: Blob, tree: Tree): Packet {
    Packet(CheckpointTx(r, dest),
           [PInput(Some(TxOut(r.value, tree.pkScript)), [Some(Leaf(BASE_LEAF_VERSION, tree.leaf, tree.control))],
             SIGHASH_DEFAULT, [])],
           [])
  }

  lemma MadeCheckpointOk(c: Crypto, r: Reserved, op: Operation, tree: Tree, sign: Signer)
    requires CanSign(c, tree, op.tapscript, sign) && (r.script == [] || r.script == tree.pkScript)
    ensures CheckpointOk(c, MakeCheckpoint(r, c.checkpointDest(op.tapscript, tree.leaf).value.0, tree), r, op, tree)
  {
    ReverseTwice(Reverse(r.txid), r.txid);
  }

  function MakeCheckpoints(inputs: seq<Reserved>, dest: Blob, tree: Tree): (r: seq<Packet>)
    ensures |r| == |inputs| && forall i :: 0 <= i < |inputs| ==> r[i] == MakeCheckpoint(inputs[i], dest, tree)
  {
    if inputs == [] then [] else [MakeCheckpoint(inputs[0], dest, tree)] + MakeCheckpoints(inputs[1..], dest, tree)
  }

  lemma MadeCheckpointsOk(c: Crypto, inputs: seq<Reserved>, op: Operation, tree: Tree, sign: Signer)
    requires CanSign(c, tree, op.tapscript, sign) && forall i :: 0 <= i < |inputs| ==> inputs[i].script == tree.pkScript
    ensures CheckpointsOk(c, MakeCheckpoints(inputs, c.checkpointDest(op.tapscript, tree.leaf).value.0, tree), inputs,
            op, tree)
  {
    var cps := MakeCheckpoints(inputs, c.checkpointDest(op.tapscript, tree.leaf).value.0, tree);
    forall i | 0 <= i < |inputs| ensures CheckpointOk(c, cps[i], inputs[i], op, tree) {
      MadeCheckpointOk(c, inputs[i], op, tree, sign);
    }
  }

  function Spent(inputs: seq<Reserved>, dest: Blob): (r: seq<Option<TxOut>>)
    ensures |r| == |inputs| && forall i :: 0 <= i < |inputs| ==> r[i] == Some(TxOut(inputs[i].value, dest))
  {
    if inputs == [] then [] else [Some(TxOut(inputs[0].value, dest))] + Spent(inputs[1..], dest)
  }

  function MakeInput(c: Crypto, tx: Tx, prevs: seq<Option<TxOut>>, i: nat, control: Blob, tree: Tree,
          sign: Signer): PInput
    requires i < |prevs|
  {
    PInput(prevs[i], [Some(Leaf(BASE_LEAF_VERSION, tree.leaf, control))], SIGHASH_DEFAULT,
           [Some(Sig(c.firstKey(tree.leaf), c.leafHash(tree.leaf), sign(tx, prevs, i), SIGHASH_DEFAULT))])
  }

  function MakeInputs(c: Crypto, tx: Tx, prevs: seq<Option<TxOut>>, n: nat, control: Blob, tree: Tree,
          sign: Signer): (r: seq<PInput>)
    requires n <= |prevs|
    ensures |r| == n && forall i :: 0 <= i < n ==> r[i] == MakeInput(c, tx, prevs, i, control, tree, sign)
  {
    if n == 0 then []
    else MakeInputs(c, tx, prevs, n - 1, control, tree, sign) + [MakeInput(c, tx, prevs, n - 1, control, tree, sign)]
  }

  function MakeSpend(c: Crypto, op: Operation, inputs: seq<Reserved>, tree: Tree, sign: Signer): Packet
    requires c.checkpointDest(op.tapscript, tree.leaf).Some?
  {
    var (dest, control) := c.checkpointDest(op.tapscript, tree.leaf).value;
    var tx := ArkTx(op, tree, Hashes(c, Txs(MakeCheckpoints(inputs, dest, tree))));
    var prevs := Spent(inputs, dest);
    Packet(tx, MakeInputs(c, tx, prevs, |prevs|, control, tree, sign), [])
  }

  lemma MadeInputOk(c: Crypto, p: Packet, i: nat, r: Reserved, prevs: seq<Option<TxOut>>, op: Operation, tree: Tree,
          sign: Signer)
    requires CanSign(c, tree, op.tapscript, sign) && i < |p.inputs| == |p.tx.ins| == |prevs| && r.value >= 0
    requires AllPresent(prevs)
    requires Prevouts(p.inputs) == prevs &&
             prevs[i] == Some(TxOut(r.value, c.checkpointDest(op.tapscript, tree.leaf).value.0))
    requires p.inputs[i] == MakeInput(c, p.tx, prevs, i, c.checkpointDest(op.tapscript, tree.leaf).value.1, tree, sign)
    ensures InputOk(c, p, i, r, c.checkpointDest(op.tapscript, tree.leaf).value.0,
            c.checkpointDest(op.tapscript, tree.leaf).value.1, tree)
  {
    var key := c.firstKey(tree.leaf);
    var sigs := p.inputs[i].sigs;
    assert sigs[0].value.key == key && |sigs| == 1;
    assert GoodSig(c, p, i, sigs[0], tree.leaf, SIGHASH_DEFAULT);
    assert HasKey(sigs, key);
    assert SignedExactlyBy(c, p, i, [key], tree.leaf, SIGHASH_DEFAULT);
  }

  lemma MadeSpendOk(c: Crypto, op: Operation, inputs: seq<Reserved>, tree: Tree, sign: Signer)
    requires CanSign(c, tree, op.tapscript, sign) && 1 <= |inputs| <= MAX_INPUTS
    requires forall i :: 0 <= i < |inputs| ==> inputs[i].value >= 0
    requires op.amount >= DUST_SATS && ChangeShape(op, tree) && op.fee >= 0
    requires Total(inputs) == op.amount + op.change + op.fee <= MAX_UINT64
    ensures SpendOk(c, MakeSpend(c, op, inputs, tree, sign), op, inputs, tree,
            MakeCheckpoints(inputs, c.checkpointDest(op.tapscript, tree.leaf).value.0, tree))
  {
    var (dest, control) := c.checkpointDest(op.tapscript, tree.leaf).value;
    var p := MakeSpend(c, op, inputs, tree, sign);
    var prevs := Spent(inputs, dest);
    assert Prevouts(p.inputs) == prevs;
    forall i | 0 <= i < |inputs| ensures InputOk(c, p, i, inputs[i], dest, control, tree) {
      MadeInputOk(c, p, i, inputs[i], prevs, op, tree, sign);
    }
  }

  // ---------- from a selection to an operation ----------

  function Reserve(coins: seq<CS.Coin>, script: Blob): (r: seq<Reserved>)
    requires forall i :: 0 <= i < |coins| ==> coins[i].valueSats <= MAX_INT64
    ensures |r| == |coins| && forall i :: 0 <= i < |coins| ==>
            r[i] == Reserved(coins[i].txid, coins[i].vout, coins[i].valueSats, script)
  {
    if coins == [] then []
    else [Reserved(coins[0].txid, coins[0].vout, coins[0].valueSats, script)] + Reserve(coins[1..], script)
  }

  lemma {:induction false} SumIsTotal(coins: seq<CS.Coin>, script: Blob)
    requires forall i :: 0 <= i < |coins| ==> coins[i].valueSats <= MAX_INT64
    ensures Total(Reserve(coins, script)) == CS.Sum(coins)
    decreases |coins|
  {
    if coins != [] {
      var front, last := coins[..|coins| - 1], coins[|coins| - 1];
      SumIsTotal(front, script);
      assert coins == front + [last];
      CS.SumAppend(front, last);
      ReserveFront(coins, script);
    }
  }

  lemma ReserveFront(coins: seq<CS.Coin>, script: Blob)
    requires coins != [] && forall i :: 0 <= i < |coins| ==> coins[i].valueSats <= MAX_INT64
    ensures Reserve(coins, script)[..|coins| - 1] == Reserve(coins[..|coins| - 1], script)
  {
  }

  /** The row that reservation stores. */
  function OperationOf(s: CS.Spend, sel: CS.Selection, tapscript: Blob): Operation
    requires sel.Selected? && s.amount <= MAX_INT64 && sel.fee <= MAX_INT64 && sel.change <= MAX_INT64
  {
    Operation(s.amount, sel.fee, sel.change, if sel.change > 0 then Some(1) else None,
              if sel.change > 0 then s.changeScript else [], s.destScript, tapscript)
  }

  /** The parts of a selection that reservation relies on. */
  lemma SelectionFacts(s: CS.Spend, vtxos: seq<CS.Vtxo>)
    requires CS.Select(s, vtxos).Selected?
    ensures var sel := CS.Select(s, vtxos);
            && 1 <= |sel.coins| <= MAX_INPUTS &&
               (forall i :: 0 <= i < |sel.coins| ==> sel.coins[i].valueSats <= MAX_INT64)
            && CS.Sum(sel.coins) == s.amount + sel.fee + sel.change <= MAX_UINT64
            && sel.fee <= MAX_INT64 && (sel.change == 0 || sel.change >= DUST_SATS)
  {
    var sel, ranked := CS.Select(s, vtxos), CS.Ranked(s, vtxos);
    CS.SelectCorrect(s, vtxos);
    var n: nat :| CS.ChosenPrefix(s, ranked, sel, n);
    assert |multiset(sel.coins)| == |sel.coins| && |multiset(ranked[..n])| == n;
    forall i | 0 <= i < |sel.coins| ensures sel.coins[i].valueSats <= MAX_INT64 {
      assert sel.coins[i] in multiset(sel.coins) && sel.coins[i] in multiset(ranked[..n]);
      assert sel.coins[i] in ranked;
      CS.RankedValues(s, vtxos, sel.coins[i]);
    }
  }

  /** The verifier can be satisfied for every operation the solver produces: there are checkpoints and
      a spend that pass. */
  lemma SolverOutputSpendable(c: Crypto, s: CS.Spend, vtxos: seq<CS.Vtxo>, tree: Tree, tapscript: Blob, sign: Signer)
    requires CS.Select(s, vtxos).Selected? && DUST_SATS <= s.amount <= MAX_INT64 &&
             CS.Select(s, vtxos).change <= MAX_INT64
    requires s.changeScript == tree.pkScript && CanSign(c, tree, tapscript, sign)
    ensures var sel := CS.Select(s, vtxos);
            && sel.fee <= MAX_INT64 && (forall i :: 0 <= i < |sel.coins| ==> sel.coins[i].valueSats <= MAX_INT64)
            && var op, inputs := OperationOf(s, sel, tapscript), Reserve(sel.coins, tree.pkScript);
            exists cps, p :: CheckpointsOk(c, cps, inputs, op, tree) && SpendOk(c, p, op, inputs, tree, cps)
  {
    var sel := CS.Select(s, vtxos);
    SelectionFacts(s, vtxos);
    var op, inputs := OperationOf(s, sel, tapscript), Reserve(sel.coins, tree.pkScript);
    var dest := c.checkpointDest(tapscript, tree.leaf).value.0;
    var cps := MakeCheckpoints(inputs, dest, tree);
    SumIsTotal(sel.coins, tree.pkScript);
    MadeCheckpointsOk(c, inputs, op, tree, sign);
    MadeSpendOk(c, op, inputs, tree, sign);
  }
}
