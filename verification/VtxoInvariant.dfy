/** What every spending transaction keeps: the fence, the input locks and the allowance. */
module VtxoInvariant {
  import opened Prelude
  import opened Sums
  import opened VtxoTables

  /** History of reservations: when each operation was inserted and in which order. */
  datatype History = History(born: map<string, int>, order: map<string, nat>, count: nat)

  /** The fixed per-vault allowance; a vault that is not enrolled may spend nothing. */
  function Allowance(allow: map<string, nat>, vault: string): nat {
    if vault in allow then allow[vault] else 0
  }

  predicate Settled(s: State) { s == Finalized || s == Aborted }

  // ---------- the invariant ----------

  ghost predicate RowOk(d: Db, h: History, now: int, id: string) {
    id in d.ops ==>
      && d.ops[id].id == id && ValidRow(d.ops[id]) && id in d.inputs
      && id in h.born && id in h.order && h.order[id] < h.count
      && h.born[id] <= now && d.ops[id].createdAt <= Stamp(now)
      && (d.ops[id].state == Finalized ==> Stamp(h.born[id]) <= d.ops[id].createdAt)
  }

  /** An operation of a vault starts only after all earlier ones are finalized or aborted. */
  ghost predicate Ordered(d: Db, h: History, j: string, k: string) {
    j in d.ops && k in d.ops && j in h.order && k in h.order && j != k ==>
      && h.order[j] != h.order[k]
      && (d.ops[j].terms.vault == d.ops[k].terms.vault && h.order[j] < h.order[k] ==> Settled(d.ops[j].state))
  }

  /** Live operations of one vault, and input-locking operations of any vaults, share no outpoint. */
  ghost predicate Apart(d: Db, j: string, k: string) {
    j in d.ops && k in d.ops && j in d.inputs && k in d.inputs && j != k ==>
      (|| (d.ops[j].terms.vault == d.ops[k].terms.vault && d.ops[j].state != Aborted && d.ops[k].state != Aborted)
       || (Locks(d.ops[j].state) && Locks(d.ops[k].state)))
      ==> !SharesOutpoint(d.inputs[j], d.inputs[k])
  }

  predicate Active(s: State) { s == Reserved || s == Signed || s == Submitted }

  /** An upper bound of the charge that does not grow with time: an unsettled operation is
      charged in full, however stale its stamp. */
  function FullCharge(r: Row, vault: string, now: int): nat {
    if r.terms.vault == vault && Counts(r.state) && (Active(r.state) || InWindow(r.createdAt, now))
      then Need(r.terms) else 0
  }

  function FullCharges(ops: map<string, Row>, vault: string, now: int): map<string, nat> {
    map id | id in ops :: FullCharge(ops[id], vault, now)
  }

  ghost predicate WithinBudget(d: Db, allow: map<string, nat>, vault: string, now: int) {
    Total(FullCharges(d.ops, vault, now)) <= Allowance(allow, vault)
  }

  /** What operation k was checked against when it was reserved: itself, and every earlier
      finalized operation of its vault still in the window at that moment. */
  function PriorCharge(ops: map<string, Row>, h: History, k: string, j: string): nat
    requires k in ops && j in ops
  {
    if j == k then Need(ops[k].terms)
    else if && k in h.born && j in h.order && k in h.order && h.order[j] < h.order[k]
            && ops[j].terms.vault == ops[k].terms.vault
            && ops[j].state == Finalized && InWindow(ops[j].createdAt, h.born[k])
    then Need(ops[j].terms) else 0
  }

  function PriorCharges(ops: map<string, Row>, h: History, k: string): map<string, nat>
    requires k in ops
  {
    map j | j in ops :: PriorCharge(ops, h, k, j)
  }

  ghost predicate PriorWithinBudget(d: Db, h: History, allow: map<string, nat>, k: string) {
    k in d.ops ==> Total(PriorCharges(d.ops, h, k)) <= Allowance(allow, d.ops[k].terms.vault)
  }

  ghost predicate DbInv(d: Db, h: History, allow: map<string, nat>, now: int) {
    && (forall id :: RowOk(d, h, now, id))
    && (forall j, k :: Ordered(d, h, j, k))
    && (forall j, k :: Apart(d, j, k))
    && (forall v :: WithinBudget(d, allow, v, now))
    && (forall k :: PriorWithinBudget(d, h, allow, k))
  }

  // ---------- time ----------

  lemma TickKeeps(d: Db, h: History, allow: map<string, nat>, now: int, later: int)
    requires DbInv(d, h, allow, now) && now <= later
    ensures DbInv(d, h, allow, later)
  {
    forall id ensures RowOk(d, h, later, id) { assert RowOk(d, h, now, id); }
    forall v ensures WithinBudget(d, allow, v, later) {
      assert WithinBudget(d, allow, v, now);
      Monotone(FullCharges(d.ops, v, later), FullCharges(d.ops, v, now));
    }
  }

  // ---------- one row moves on ----------

  /** A legal rewrite of one row: terms stay, the state moves along the graph, and the stamp is
      kept or taken from the clock since the operation was inserted. */
  ghost predicate Rewrites(base: Row, next: Row, h: History, now: int) {
    && next.id == base.id && next.terms == base.terms
    && ValidTransition(base.state, next.state) && ValidRow(next)
    && (next.createdAt == base.createdAt ||
       (base.id in h.born && Stamp(h.born[base.id]) <= next.createdAt <= Stamp(now)))
    && (next.state == Finalized ==> base.id in h.born && Stamp(h.born[base.id]) <= next.createdAt <= Stamp(now))
  }

  lemma RewriteBudget(d: Db, u: Db, h: History, allow: map<string, nat>, now: int, id: string, next: Row, v: string)
    requires DbInv(d, h, allow, now) && id in d.ops && Rewrites(d.ops[id], next, h, now)
    requires u.ops == d.ops[id := next]
    ensures WithinBudget(u, allow, v, now)
  {
    assert WithinBudget(d, allow, v, now);
    Monotone(FullCharges(u.ops, v, now), FullCharges(d.ops, v, now));
  }

  lemma RewritePrior(d: Db, u: Db, h: History, allow: map<string, nat>, now: int, id: string, next: Row, k: string)
    requires DbInv(d, h, allow, now) && id in d.ops && Rewrites(d.ops[id], next, h, now)
    requires u.ops == d.ops[id := next]
    ensures PriorWithinBudget(u, h, allow, k)
  {
    if k in u.ops {
      assert PriorWithinBudget(d, h, allow, k);
      assert Ordered(d, h, id, k);
      Monotone(PriorCharges(u.ops, h, k), PriorCharges(d.ops, h, k));
    }
  }

  lemma RewriteKeeps(d: Db, u: Db, h: History, allow: map<string, nat>, now: int, id: string, next: Row)
    requires DbInv(d, h, allow, now) && id in d.ops && Rewrites(d.ops[id], next, h, now)
    requires u.ops == d.ops[id := next] && u.inputs == d.inputs
    ensures DbInv(u, h, allow, now)
  {
    assert RowOk(d, h, now, id);
    forall j ensures RowOk(u, h, now, j) { assert RowOk(d, h, now, j); }
    forall j, k ensures Ordered(u, h, j, k) { assert Ordered(d, h, j, k); }
    forall j, k ensures Apart(u, j, k) { assert Apart(d, j, k); }
    forall v ensures WithinBudget(u, allow, v, now) { RewriteBudget(d, u, h, allow, now, id, next, v); }
    forall k ensures PriorWithinBudget(u, h, allow, k) { RewritePrior(d, u, h, allow, now, id, next, k); }
  }

  // ---------- expiry ----------

  lemma AbortKeeps(d: Db, u: Db, h: History, allow: map<string, nat>, now: int, vault: string)
    requires DbInv(d, h, allow, now)
    requires u.ops == AbortExpired(d.ops, vault, now) && u.inputs == d.inputs
    ensures DbInv(u, h, allow, now)
  {
    forall j ensures RowOk(u, h, now, j) { assert RowOk(d, h, now, j); }
    forall j, k ensures Ordered(u, h, j, k) { assert Ordered(d, h, j, k); }
    forall j, k ensures Apart(u, j, k) { assert Apart(d, j, k); }
    forall v ensures WithinBudget(u, allow, v, now) {
      assert WithinBudget(d, allow, v, now);
      Monotone(FullCharges(u.ops, v, now), FullCharges(d.ops, v, now));
    }
    forall k ensures PriorWithinBudget(u, h, allow, k) {
      if k in u.ops {
        assert PriorWithinBudget(d, h, allow, k);
        Monotone(PriorCharges(u.ops, h, k), PriorCharges(d.ops, h, k));
      }
    }
  }

  // ---------- a new reservation ----------

  function Record(h: History, id: string, now: int): History {
    History(h.born[id := now], h.order[id := h.count], h.count + 1)
  }

  /** Once the fence is passed, what the window counts is all that can ever be charged. */
  lemma FenceMeansSettled(d: Db, rec: Row, now: int)
    requires !Fenced(d.ops, rec.terms.vault, rec.id) && rec.id !in d.ops
    ensures FullCharges(d.ops, rec.terms.vault, now) == Charges(d.ops, rec.terms.vault, now)
  {
    forall id | id in d.ops
      ensures FullCharge(d.ops[id], rec.terms.vault, now) == Charge(d.ops[id], rec.terms.vault, now)
    {
    }
  }

  lemma InsertBudget(d: Db, u: Db, allow: map<string, nat>, now: int, rec: Row, v: string)
    requires WithinBudget(d, allow, v, now)
    requires rec.id !in d.ops && u.ops == d.ops[rec.id := rec]
    requires !Fenced(d.ops, rec.terms.vault, rec.id)
    requires Total(Charges(d.ops, rec.terms.vault, now)) + Need(rec.terms) <= Allowance(allow, rec.terms.vault)
    ensures WithinBudget(u, allow, v, now)
  {
    var m := FullCharges(d.ops, v, now);
    var c := FullCharge(rec, v, now);
    Insert(m, rec.id, c);
    Monotone(FullCharges(u.ops, v, now), m[rec.id := c]);
    if v == rec.terms.vault {
      assert m == Charges(d.ops, v, now) by { FenceMeansSettled(d, rec, now); }
    }
  }

  lemma InsertPrior(d: Db, u: Db, h: History, allow: map<string, nat>, now: int, rec: Row, k: string)
    requires DbInv(d, h, allow, now)
    requires rec.id !in d.ops && u.ops == d.ops[rec.id := rec]
    requires Total(Charges(d.ops, rec.terms.vault, now)) + Need(rec.terms) <= Allowance(allow, rec.terms.vault)
    ensures PriorWithinBudget(u, Record(h, rec.id, now), allow, k)
  {
    var g := Record(h, rec.id, now);
    forall j | j in d.ops ensures j in h.order && h.order[j] < h.count && j in h.born { assert RowOk(d, h, now, j); }
    if k == rec.id {
      var m := Charges(d.ops, rec.terms.vault, now);
      Insert(m, k, Need(rec.terms));
      Monotone(PriorCharges(u.ops, g, k), m[k := Need(rec.terms)]);
    } else if k in u.ops {
      assert PriorWithinBudget(d, h, allow, k);
      Monotone(PriorCharges(u.ops, g, k), PriorCharges(d.ops, h, k));
    }
  }

  lemma InsertOrdered(d: Db, u: Db, h: History, allow: map<string, nat>, now: int, rec: Row, j: string, k: string)
    requires DbInv(d, h, allow, now)
    requires rec.id !in d.ops && u.ops == d.ops[rec.id := rec]
    requires !Fenced(d.ops, rec.terms.vault, rec.id)
    ensures Ordered(u, Record(h, rec.id, now), j, k)
  {
    assert Ordered(d, h, j, k);
    assert RowOk(d, h, now, j) && RowOk(d, h, now, k);
  }

  lemma InsertApart(d: Db, u: Db, rec: Row, ins: seq<Input>, j: string, k: string)
    requires Apart(d, j, k)
    requires rec.id !in d.ops && u.ops == d.ops[rec.id := rec] && u.inputs == d.inputs[rec.id := InputSet(ins)]
    requires !Fenced(d.ops, rec.terms.vault, rec.id) && !Overlaps(d.ops, d.inputs, rec.id, ins)
    ensures Apart(u, j, k)
  {
    if j in d.ops && j in d.inputs && j != rec.id {
      assert Locks(d.ops[j].state) ==> !SharesOutpoint(d.inputs[j], InputSet(ins));
    }
    if k in d.ops && k in d.inputs && k != rec.id {
      assert Locks(d.ops[k].state) ==> !SharesOutpoint(d.inputs[k], InputSet(ins));
      assert SharesOutpoint(InputSet(ins), d.inputs[k]) ==> SharesOutpoint(d.inputs[k], InputSet(ins));
    }
  }

  lemma InsertKeeps(d: Db, u: Db, h: History, allow: map<string, nat>, now: int, rec: Row, ins: seq<Input>)
    requires DbInv(d, h, allow, now)
    requires rec.id !in d.ops && u.ops == d.ops[rec.id := rec] && u.inputs == d.inputs[rec.id := InputSet(ins)]
    requires rec.state == Reserved && ValidRow(rec) && rec.createdAt <= Stamp(now)
    requires !Fenced(d.ops, rec.terms.vault, rec.id) && !Overlaps(d.ops, d.inputs, rec.id, ins)
    requires Total(Charges(d.ops, rec.terms.vault, now)) + Need(rec.terms) <= Allowance(allow, rec.terms.vault)
    ensures DbInv(u, Record(h, rec.id, now), allow, now)
  {
    var g := Record(h, rec.id, now);
    forall j ensures RowOk(u, g, now, j) { assert RowOk(d, h, now, j); }
    forall j, k ensures Ordered(u, g, j, k) { InsertOrdered(d, u, h, allow, now, rec, j, k); }
    forall j, k ensures Apart(u, j, k) { assert Apart(d, j, k); InsertApart(d, u, rec, ins, j, k); }
    forall v ensures WithinBudget(u, allow, v, now) {
      assert WithinBudget(d, allow, v, now); InsertBudget(d, u, allow, now, rec, v); }
    forall k ensures PriorWithinBudget(u, g, allow, k) { InsertPrior(d, u, h, allow, now, rec, k); }
  }

  /** A successful reservation keeps every invariant, whatever its stamp, as long as the stamp
      was read from the clock at or before the transaction. */
  lemma ReserveKeeps(d: Db, h: History, allow: map<string, nat>, now: int, rec: Row, ins: seq<Input>)
    requires DbInv(d, h, allow, now) && rec.createdAt <= Stamp(now)
    requires ReserveOutcome(d, rec, ins, Allowance(allow, rec.terms.vault), now) == Done
    ensures DbInv(Reserve(d, rec, ins, Allowance(allow, rec.terms.vault), now), Record(h, rec.id, now), allow, now)
  {
    var e := d.(ops := AbortExpired(d.ops, rec.terms.vault, now));
    AbortKeeps(d, e, h, allow, now, rec.terms.vault);
    InsertKeeps(e, Reserve(d, rec, ins, Allowance(allow, rec.terms.vault), now), h, allow, now, rec, ins);
  }
}
