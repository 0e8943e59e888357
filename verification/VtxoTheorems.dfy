/** Spending guarantees over every run of the ledger and its handlers. */
module VtxoTheorems {
  import opened Prelude
  import opened Sums
  import opened VtxoTables
  import opened VtxoInvariant
  import opened VtxoProtocol
  import O = Ordering

  lemma {:induction false} ExecSafe(w: World, acts: seq<Action>)
    requires Safe(w)
    ensures Safe(Exec(w, acts)) && DbLater(w.db, Exec(w, acts).db) && Exec(w, acts).allow == w.allow
    decreases |acts|
  {
    if acts == [] {
      forall id ensures IdLater(w.db, w.db, id) { }
    } else {
      StepSafe(w, acts[0]);
      ExecSafe(Next(w, acts[0]), acts[1..]);
      LaterTransitive(w.db, Next(w, acts[0]).db, Exec(w, acts).db);
    }
  }

  /** Every run from the empty ledger is safe. */
  lemma EveryRunSafe(allow: map<string, nat>, acts: seq<Action>)
    ensures Safe(Exec(Start(allow), acts)) && Exec(Start(allow), acts).allow == allow
  {
    var w := Start(allow);
    forall v ensures WithinBudget(w.db, allow, v, 0) { assert FullCharges(w.db.ops, v, 0) == map[]; }
    ExecSafe(w, acts);
  }

  // ---------- the allowance ----------

  /** What leaves the vault: amount plus fee. */
  function Outflow(t: Terms): nat {
    if t.amountSats >= 0 && t.feeSats >= 0 then t.amountSats + t.feeSats else 0
  }

  /** A row of the vault weighs its outflow while it is signed or submitted, and, if it was not aborted,
      until 24 hours after its stamp. */
  function Weight(r: Row, vault: string, now: int): nat {
    if && r.terms.vault == vault
       && (|| r.state in {Signed, Submitted}
           || (r.state in {Reserved, Finalized, Unresolved} && now <= (r.createdAt + 86_400) * 1_000_000_000))
    then Outflow(r.terms) else 0
  }

  function Weights(ops: map<string, Row>, vault: string, now: int): map<string, nat> {
    map id | id in ops :: Weight(ops[id], vault, now)
  }

  lemma ChargesAreWeights(ops: map<string, Row>, vault: string, now: int)
    ensures Charges(ops, vault, now) == Weights(ops, vault, now)
  {
    forall id | id in ops ensures Charge(ops[id], vault, now) == Weight(ops[id], vault, now) { }
  }

  /** At every moment of every run, what the window counts is the weight of the vault's rows and stays
      within the allowance. */
  lemma SpentWithinAllowance(allow: map<string, nat>, acts: seq<Action>, vault: string)
    requires Allowance(allow, vault) <= MAX_INT64
    ensures var w := Exec(Start(allow), acts);
            && SpentInWindow(w.db.ops, vault, w.now) == Some(Total(Weights(w.db.ops, vault, w.now)))
            && Total(Weights(w.db.ops, vault, w.now)) <= Allowance(allow, vault)
  {
    var w := Exec(Start(allow), acts);
    EveryRunSafe(allow, acts);
    ChargesAreWeights(w.db.ops, vault, w.now);
    assert WithinBudget(w.db, allow, vault, w.now);
    Monotone(Charges(w.db.ops, vault, w.now), FullCharges(w.db.ops, vault, w.now));
  }

  /** The finalized amount plus fee of one row, if its settlement stamp lies in [from, to). */
  function SettledIn(r: Row, vault: string, from: int, to: int): nat {
    if r.terms.vault == vault && r.state == Finalized && from <= r.createdAt < to then Outflow(r.terms) else 0
  }

  function SettledBetween(ops: map<string, Row>, vault: string, from: int, to: int): map<string, nat> {
    map id | id in ops :: SettledIn(ops[id], vault, from, to)
  }

  lemma LastReserved(s: set<string>, order: map<string, nat>) returns (k: string)
    requires s != {} && forall j :: j in s ==> j in order
    ensures k in s && forall j :: j in s ==> order[j] <= order[k]
  {
    k :| k in s;
    var rest := s - {k};
    if rest != {} {
      var m := LastReserved(rest, order);
      if order[k] < order[m] { k := m; }
    }
  }

  /** In every run, any 24 hours of settlement stamps (half-open, in whole seconds) hold at most
      the allowance, although operations leave the window, sit signed for any time and are
      re-stamped when they finalize. */
  lemma SettledWithinAllowance(allow: map<string, nat>, acts: seq<Action>, vault: string, from: int)
    ensures Total(SettledBetween(Exec(Start(allow), acts).db.ops, vault, from, from + 86_400)) <=
            Allowance(allow, vault)
  {
    var w := Exec(Start(allow), acts);
    EveryRunSafe(allow, acts);
    var ops, to := w.db.ops, from + ALLOWANCE_WINDOW;
    var settled := SettledBetween(ops, vault, from, to);
    var s := set id | id in ops && settled[id] > 0;
    forall id | id in ops ensures id in w.h.order { assert RowOk(w.db, w.h, w.now, id); }
    if s == {} {
      forall id | id in settled ensures settled[id] == 0 { assert id !in s; }
      Monotone(settled, map[]);
    } else {
      var k := LastReserved(s, w.h.order);
      forall j | j in ops ensures settled[j] <= PriorCharge(ops, w.h, k, j) {
        if j in s { PriorCounts(w, vault, from, j, k); }
      }
      Monotone(settled, PriorCharges(ops, w.h, k));
      assert PriorWithinBudget(w.db, w.h, allow, k);
    }
  }

  /** A settlement in the same day was still in the window when k was reserved. */
  lemma PriorCounts(w: World, vault: string, from: int, j: string, k: string)
    requires Safe(w) && j in w.db.ops && k in w.db.ops && j in w.h.order && k in w.h.order
    requires SettledIn(w.db.ops[j], vault, from, from + ALLOWANCE_WINDOW) > 0
    requires SettledIn(w.db.ops[k], vault, from, from + ALLOWANCE_WINDOW) > 0
    requires w.h.order[j] <= w.h.order[k]
    ensures PriorCharge(w.db.ops, w.h, k, j) == Need(w.db.ops[j].terms)
  {
    assert RowOk(w.db, w.h, w.now, j) && RowOk(w.db, w.h, w.now, k);
    assert Ordered(w.db, w.h, j, k);
  }

  // ---------- fences and locks ----------

  /** Each vault has at most one operation that is reserved, signed, submitted or unresolved. */
  lemma OneActivePerVault(allow: map<string, nat>, acts: seq<Action>, j: string, k: string)
    requires var ops := Exec(Start(allow), acts).db.ops;
             && j in ops && k in ops && ops[j].terms.vault == ops[k].terms.vault
             && ops[j].state in {Reserved, Signed, Submitted, Unresolved}
             && ops[k].state in {Reserved, Signed, Submitted, Unresolved}
    ensures j == k
  {
    var w := Exec(Start(allow), acts);
    EveryRunSafe(allow, acts);
    assert RowOk(w.db, w.h, w.now, j) && RowOk(w.db, w.h, w.now, k);
    assert Ordered(w.db, w.h, j, k) && Ordered(w.db, w.h, k, j);
  }

  /** Two operations of a vault that were never aborted, and two input-locking operations of
      any vaults, share no outpoint. */
  lemma OutpointsNeverShared(allow: map<string, nat>, acts: seq<Action>, j: string, k: string)
    requires var ops := Exec(Start(allow), acts).db.ops;
             && j in ops && k in ops && j != k
             && (|| (ops[j].terms.vault == ops[k].terms.vault && ops[j].state != Aborted && ops[k].state != Aborted)
                 || (&& ops[j].state in {Reserved, Signed, Submitted, Finalized}
                     && ops[k].state in {Reserved, Signed, Submitted, Finalized}))
    ensures var d := Exec(Start(allow), acts).db;
            && j in d.inputs && k in d.inputs
            && forall a, b :: a in d.inputs[j] && b in d.inputs[k] ==> a.outpoint != b.outpoint
  {
    var w := Exec(Start(allow), acts);
    EveryRunSafe(allow, acts);
    assert RowOk(w.db, w.h, w.now, j) && RowOk(w.db, w.h, w.now, k);
    assert Apart(w.db, j, k);
  }

  lemma UnresolvedRefuses(w: World, act: Action, id: string, k: string)
    requires Safe(w) && Enabled(w, act) && id in w.db.ops && w.db.ops[id].state == Unresolved
    requires k in NextDb(w, act).ops && NextDb(w, act).ops[k].terms.vault == w.db.ops[id].terms.vault
    ensures k in w.db.ops
  {
    assert RowOk(w.db, w.h, w.now, id);
    if act.Insert? {
      var rec := w.procs[act.p].rec;
      var ops := AbortExpired(w.db.ops, rec.terms.vault, w.now);
      if rec.terms.vault == w.db.ops[id].terms.vault { assert ops[id].state == Unresolved; }
    }
  }

  /** An unresolved operation fences its vault forever: it never changes, and no operation of
      that vault is ever added after it. */
  lemma {:induction false} UnresolvedFencesForever(w: World, acts: seq<Action>, id: string, k: string)
    requires Safe(w) && id in w.db.ops && w.db.ops[id].state == Unresolved
    ensures var u := Exec(w, acts).db;
            && id in u.ops && u.ops[id] == w.db.ops[id]
            && (k in u.ops && u.ops[k].terms.vault == w.db.ops[id].terms.vault ==> k in w.db.ops)
    decreases |acts|
  {
    if acts != [] {
      var w' := Next(w, acts[0]);
      StepSafe(w, acts[0]);
      assert IdLater(w.db, w'.db, id);
      UnresolvedFencesForever(w', acts[1..], id, k);
      var u := Exec(w, acts).db;
      if Enabled(w, acts[0]) && k in u.ops && u.ops[k].terms.vault == w.db.ops[id].terms.vault {
        assert k in w'.db.ops;
        ExecSafe(w', acts[1..]);
        assert IdLater(w'.db, u, k);
        if w'.db == NextDb(w, acts[0]) { UnresolvedRefuses(w, acts[0], id, k); }
      }
    }
  }

  // ---------- snapshots and retries ----------

  /** From reservation to the end of every run an operation keeps its amount, fee, destination,
      change, digest, expiry and inputs, and its state only moves forward. */
  lemma OperationNeverRebinds(w: World, acts: seq<Action>, id: string)
    requires Safe(w) && id in w.db.ops && id in w.db.inputs
    ensures var u := Exec(w, acts).db;
            && id in u.ops && u.ops[id].terms == w.db.ops[id].terms
            && id in u.inputs && u.inputs[id] == w.db.inputs[id]
            && Reaches(w.db.ops[id].state, u.ops[id].state)
            && (u.ops[id].state == w.db.ops[id].state ==> u.ops[id] == w.db.ops[id])
  {
    ExecSafe(w, acts);
    assert IdLater(w.db, Exec(w, acts).db, id);
  }

  /** Whenever a handler's swap succeeds in a run, the live row was the handler's snapshot. */
  lemma SwapSeesItsSnapshot(allow: map<string, nat>, acts: seq<Action>, p: nat)
    requires var w := Exec(Start(allow), acts);
             && p in w.procs && w.procs[p].Writing?
             && Swap(w.db, w.procs[p].base, w.procs[p].next, w.procs[p].writer).Swapped?
    ensures var w := Exec(Start(allow), acts);
            w.procs[p].base.id in w.db.ops && w.db.ops[w.procs[p].base.id] == w.procs[p].base
  {
    var w := Exec(Start(allow), acts);
    EveryRunSafe(allow, acts);
    assert PcOk(w.db, w.h, w.now, w.procs[p]);
    SwapIsWholeRow(w.db, w.h, w.now, w.procs[p].base, w.procs[p].next, w.procs[p].writer);
  }

  /** An ordered list of inputs is determined by the set it lists. */
  lemma ListedOnce(a: seq<Input>, b: seq<Input>)
    requires O.Sorted(Before, a) && O.Sorted(Before, b) && InputSet(a) == InputSet(b)
    ensures a == b
  {
    forall x, y | x in a && y in a ensures !(Before(x, y) && Before(y, x)) {
      O.BytesLessAsymmetric(x.outpoint.txid, y.outpoint.txid);
    }
    assert forall x :: x in a <==> x in InputSet(a);
    assert forall x :: x in b <==> x in InputSet(b);
    O.SortedByElements(Before, a, b);
  }

  /** All successful reserve responses for one operation id are identical, inputs in order included. */
  lemma ReserveResponsesAgree(allow: map<string, nat>, acts: seq<Action>, a: ReserveView, b: ReserveView)
    requires a in Exec(Start(allow), acts).views && b in Exec(Start(allow), acts).views && a.id == b.id
    ensures a == b
  {
    EveryRunSafe(allow, acts);
    assert ViewOk(Exec(Start(allow), acts).db, a) && ViewOk(Exec(Start(allow), acts).db, b);
    ListedOnce(a.inputs, b.inputs);
  }

  /** All authorize responses for one operation carry the same PSBT, proof and Ark txid; they are
      durable, and an operation whose signature was released is not aborted, then or later. */
  lemma ReleasedIsDurable(allow: map<string, nat>, acts: seq<Action>, a: Released, b: Released)
    requires a in Exec(Start(allow), acts).released && b in Exec(Start(allow), acts).released && a.id == b.id
    ensures a == b
    ensures var ops := Exec(Start(allow), acts).db.ops;
            a.id in ops && ops[a.id].release == a.release && ops[a.id].state != Reserved && ops[a.id].state != Aborted
  {
    EveryRunSafe(allow, acts);
    assert ReleaseOk(Exec(Start(allow), acts).db, a) && ReleaseOk(Exec(Start(allow), acts).db, b);
  }

  /** All checkpoint authorize responses for one operation carry the same checkpoints and Ark txid, and
      they stay in the row, which was submitted. */
  lemma HandedIsDurable(allow: map<string, nat>, acts: seq<Action>, a: Handed, b: Handed)
    requires a in Exec(Start(allow), acts).handed && b in Exec(Start(allow), acts).handed && a.id == b.id
    ensures a == b
    ensures var ops := Exec(Start(allow), acts).db.ops;
            && a.id in ops && Dispatched(ops[a.id].state)
            && ops[a.id].checkpoints.psbts == a.psbts && ops[a.id].release.arkTxid == a.arkTxid
  {
    EveryRunSafe(allow, acts);
    assert HandedOk(Exec(Start(allow), acts).db, a) && HandedOk(Exec(Start(allow), acts).db, b);
  }
}
