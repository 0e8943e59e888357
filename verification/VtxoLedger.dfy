/** The spending methods of the SQLite ledger, each one transaction under the ledger mutex.
    `commits` says whether the policy sequence and the COMMIT succeed. */
module VtxoLedger {
  import opened Prelude
  import opened Sums
  import opened VtxoTables

  class Ledger {
    var ops: map<string, Row>
    var inputs: map<string, set<Input>>
    var counts: map<Counter, nat>

    constructor ()
      ensures Valid() && Contents() == Db(map[], map[], map[])
    {
      ops, inputs, counts := map[], map[], map[];
    }

    function Contents(): Db
      reads this
    {
      Db(ops, inputs, counts)
    }

    /** Only sealed rows are ever stored. */
    ghost predicate Valid()
      reads this
    {
      forall id :: id in ops ==> ValidRow(ops[id]) && ops[id].id == id
    }

    /** spentInWindow: adds up the rows of the vault, refusing to leave the 64-bit range. */
    method SpentInPeriod(rows: map<string, Row>, vault: string, now: int) returns (spent: Option<nat>)
      requires forall id :: id in rows ==> ValidRow(rows[id])
      ensures spent == SpentInWindow(rows, vault, now)
    {
      var total := 0;
      var rest := rows.Keys;
      ghost var m := Charges(rows, vault, now);
      assert m - (rows.Keys - rest) == m;
      while rest != {}
        invariant rest <= rows.Keys && 0 <= total <= MAX_INT64
        invariant total + Total(m - (rows.Keys - rest)) == Total(m)
        decreases rest
      {
        var id :| id in rest;
        ghost var left := m - (rows.Keys - rest);
        Extract(left, id);
        assert left - {id} == m - (rows.Keys - (rest - {id}));
        var row := rows[id];
        rest := rest - {id};
        if row.terms.vault == vault && Counts(row.state) &&
          (AwaitingSettlement(row.state) || InWindow(row.createdAt, now)) {
          var need := row.terms.amountSats + row.terms.feeSats;
          if need > MAX_INT64 || total > MAX_INT64 - need { return None; }
          total := total + need;
        }
      }
      assert m - (rows.Keys - rest) == map[];
      return Some(total);
    }

    /** abortExpiredVtxoLocked: collects the expired reservations of a vault, then aborts them. */
    method AbortExpiredRows(vault: string, now: int) returns (rows: map<string, Row>)
      ensures rows == AbortExpired(ops, vault, now)
    {
      rows := ops;
      var rest := ops.Keys;
      while rest != {}
        invariant rest <= ops.Keys && rows.Keys == ops.Keys
        invariant forall id :: id in rest ==> rows[id] == ops[id]
        invariant forall id :: id in ops && id !in rest ==> rows[id] == AbortExpired(ops, vault, now)[id]
        decreases rest
      {
        var id :| id in rest;
        rest := rest - {id};
        if Expired(rows[id], vault, now) { rows := rows[id := rows[id].(state := Aborted)]; }
      }
    }

    /** rejectOverlappingVtxoInputs and rejectConcurrentVtxoOperationLocked, over one scan each. */
    method Conflicts(rows: map<string, Row>, id: string, vault: string, ins: seq<Input>) returns (overlap: bool,
            fenced: bool)
      ensures overlap == Overlaps(rows, inputs, id, ins)
      ensures fenced == Fenced(rows, vault, id)
    {
      overlap, fenced := false, false;
      var rest := rows.Keys;
      while rest != {}
        invariant rest <= rows.Keys
        invariant overlap == exists other :: other in rows && other !in rest && other != id && other in inputs
                               && Locks(rows[other].state) && SharesOutpoint(inputs[other], InputSet(ins))
        invariant fenced == exists other :: other in rows && other !in rest && other != id
                              && rows[other].terms.vault == vault && Blocks(rows[other].state)
        decreases rest
      {
        var other :| other in rest;
        rest := rest - {other};
        if other != id {
          if Locks(rows[other].state) && other in inputs && SharesOutpoint(inputs[other], InputSet(ins)) {
            overlap := true;
          }
          if rows[other].terms.vault == vault && Blocks(rows[other].state) { fenced := true; }
        }
      }
    }

    /** The decision of a reservation, over the rows as they are after expiry. */
    method Decide(rows: map<string, Row>, rec: Row, ins: seq<Input>, cap: int, now: int) returns (res: ReserveResult)
      requires Valid() && rows == AbortExpired(ops, rec.terms.vault, now)
      requires rec.id != "" && rec.terms.vault != "" && rec.state == Reserved && cap >= 0 && 1 <= |ins| <= MAX_INPUTS
      ensures res == ReserveOutcome(Contents(), rec, ins, cap, now)
    {
      var overlap, fenced := Conflicts(rows, rec.id, rec.terms.vault, ins);
      if overlap { return Refused; }
      if fenced { return OperationActive; }
      var used := SpentInPeriod(rows, rec.terms.vault, now);
      if used.None? { return Refused; }
      if rec.terms.amountSats < 0 || rec.terms.feeSats < 0 || rec.terms.amountSats + rec.terms.feeSats > MAX_INT64 {
        return Refused;
      }
      var need := rec.terms.amountSats + rec.terms.feeSats;
      if used.value > cap || need > cap - used.value { return AllowanceExceeded; }
      if !ValidRow(rec) || rec.id in rows || !ValidInputs(ins) { return Refused; }
      return Done;
    }

    lemma DoneIsValid(rec: Row, ins: seq<Input>, cap: int, now: int)
      requires Valid() && ReserveOutcome(Contents(), rec, ins, cap, now) == Done
      ensures ValidRow(rec)
      ensures forall id :: id in ops ==> var r := AbortExpired(ops, rec.terms.vault, now)[id]; ValidRow(r) && r.id == id
    {
    }

    /** ReserveVtxoOperation: abort what expired, check locks, fence and allowance, then insert. */
    method ReserveOperation(rec: Row, ins: seq<Input>, cap: int, now: int, commits: bool) returns (res: ReserveResult)
      requires Valid()
      modifies this`ops, this`inputs
      ensures Valid()
      ensures commits ==> res == ReserveOutcome(old(Contents()), rec, ins, cap, now)
      ensures commits ==> Contents() == Reserve(old(Contents()), rec, ins, cap, now)
      ensures !commits ==> res != Done && Contents() == old(Contents())
    {
      if rec.id == "" || rec.terms.vault == "" || rec.state != Reserved || cap < 0 || !(1 <= |ins| <= MAX_INPUTS) {
        return Refused;
      }
      var rows := AbortExpiredRows(rec.terms.vault, now);
      res := Decide(rows, rec, ins, cap, now);
      if res != Done { return; }
      if !commits { return Refused; }
      DoneIsValid(rec, ins, cap, now);
      ops := rows[rec.id := rec];
      inputs := inputs[rec.id := InputSet(ins)];
    }

    /** TransitionVtxoOperation: whole-row write guarded by the state column alone. */
    method TransitionOperation(expected: State, rec: Row, commits: bool) returns (res: SwapResult)
      requires Valid()
      modifies this`ops
      ensures Valid()
      ensures commits ==> res == TransitionResult(old(Contents()), expected, rec)
      ensures commits ==> Contents() == Transition(old(Contents()), expected, rec)
      ensures !commits ==> res.SwapError? && Contents() == old(Contents())
    {
      if rec.id == "" || rec.terms.vault == "" || !ValidTransition(expected, rec.state) || !ValidRow(rec) ||
        !commits { return SwapError; }
      if rec.id !in ops { return SwapError; }
      var current := ops[rec.id];
      if current.terms.vault != rec.terms.vault || current.state != expected { return Found(current); }
      ops := ops[rec.id := rec];
      return Swapped(rec);
    }

    /** advanceSignCountLocked. */
    method AdvanceSignCount(vault: string, credential: Blob, incoming: nat) returns (ok: bool)
      modifies this`counts
      ensures ok == Advance(old(counts), Counter(vault, credential), incoming).Some?
      ensures counts == if ok then Advance(old(counts), Counter(vault, credential), incoming).value else old(counts)
    {
      var c := Counter(vault, credential);
      if c in counts {
        var stored := counts[c];
        if incoming == 0 && stored > 0 { return false; }
        if incoming > 0 && incoming <= stored { return false; }
        if incoming == 0 && stored == 0 { return true; }
      }
      counts := counts[c := incoming];
      return true;
    }

    /** CommitSignedVtxoOperation: the swap and the counter, or neither. */
    method CommitSignedOperation(rec: Row, credential: Blob, count: nat, commits: bool) returns (res: SwapResult)
      requires Valid()
      modifies this`ops, this`counts
      ensures Valid()
      ensures commits ==> res == CommitResult(old(Contents()), rec, credential, count)
      ensures commits ==> Contents() == CommitSigned(old(Contents()), rec, credential, count)
      ensures !commits ==> res.SwapError? && Contents() == old(Contents())
    {
      if rec.id == "" || rec.terms.vault == "" || credential == [] || rec.state != Signed || !ValidRow(rec) ||
        !commits { return SwapError; }
      if !Matches(Contents(), Reserved, rec) {
        if rec.id !in ops { return SwapError; }
        var current := ops[rec.id];
        if current.state == Signed && !CountReplays(counts, Counter(rec.terms.vault, credential), count) {
          return SwapError;
        }
        return Found(current);
      }
      var ok := AdvanceSignCount(rec.terms.vault, credential, count);
      if !ok { return SwapError; }
      ops := ops[rec.id := rec];
      return Swapped(rec);
    }
  }
}
